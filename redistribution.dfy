/** handle_percentage_redistribution (prognoz/utils.py): one reaction to one
    edit of a bounded percentage set. The first item whose percentual differs
    from the previous snapshot is the edited one; its change (delta) is taken
    from the other items in proportion to their previous values, each clamped
    into its (min, default, max) row; then the snapshot is refreshed. The
    session store is an object holding `current`, the `previous` snapshot (None
    until the first call) and the `redistribution_occured` flag. */
module Redistribution {
  import opened Wrappers
  import opened PyRuntime
  import opened Tables

  /** One entry of the set: `{"percentual": p, "fonte": f}`. */
  datatype Share = Share(percentual: real, fonte: string)

  /** The session state the handler reads and writes. */
  datatype Session = Session(current: Dict<Share>, previous: Option<Dict<Share>>, occurred: bool)

  /** The session after the handler, and the exception that escaped it, if any. */
  datatype Reaction = Reaction(after: Session, escaped: Option<Exc>)

  /** `previous.get(k, {}).get('percentual')`. */
  function PreviousPercent(prev: Dict<Share>, k: string): Option<real> {
    match Get(prev, k)
    case Some(s) => Some(s.percentual)
    case None => None
  }

  /** Item i of `current` is edited: its percentual differs from the previous
      one, or the previous snapshot does not hold its key. */
  predicate Edited(cur: Dict<Share>, prev: Dict<Share>, i: nat)
    requires i < |cur|
  {
    PreviousPercent(prev, cur[i].0) != Some(cur[i].1.percentual)
  }

  /** The first edited item at or after `from`, in the set's order (`next(...)`). */
  function FirstEdited(cur: Dict<Share>, prev: Dict<Share>, from: nat): (r: Option<nat>)
    requires from <= |cur|
    ensures r.Some? ==> from <= r.value < |cur| && Edited(cur, prev, r.value)
    ensures forall j | from <= j < |cur| && (r.None? || j < r.value) :: !Edited(cur, prev, j)
    decreases |cur| - from
  {
    if from == |cur| then None
    else if Edited(cur, prev, from) then Some(from)
    else FirstEdited(cur, prev, from + 1)
  }

  /** `sum(v['percentual'] for k, v in previous.items() if k != key)`. */
  function OthersTotal(prev: Dict<Share>, key: string): real {
    if prev == [] then 0.0
    else OthersTotal(prev[..|prev| - 1], key) + (if prev[|prev| - 1].0 != key then prev[|prev| - 1].1.percentual else 0.0)
  }

  /** `values['percentual'] - delta * (previous[item]['percentual'] / total_others)`. */
  function Lowered(x: real, delta: real, weight: real, total: real): real
    requires total != 0.0
  {
    x - delta * (weight / total)
  }

  /** `max(lo, min(x, hi))`. */
  function ClampShare(x: real, lo: real, hi: real): (r: real)
    ensures lo <= r
    ensures lo <= hi ==> r <= hi
    ensures lo <= x <= hi ==> r == x
  {
    var m := if x <= hi then x else hi;
    if lo >= m then lo else m
  }

  /** The share the loop leaves at position i: the edited key is skipped;
      any other key needs its constants row and its previous value, and
      KeyError escapes when either is missing. */
  function Adjusted(cur: Dict<Share>, prev: Dict<Share>, constants: Dict<ShareRange>,
                    key: string, delta: real, total: real, i: nat): Outcome<Share>
    requires i < |cur| && total != 0.0
  {
    var (item, values) := cur[i];
    if item == key then Ok(values)
    else match Get(constants, item)
      case None => Raised(KeyError)
      case Some(row) =>
        match Get(prev, item)
        case None => Raised(KeyError)
        case Some(p) =>
          Ok(Share(ClampShare(Lowered(values.percentual, delta, p.percentual, total), row.min, row.max), values.fonte))
  }

  /** The first position at or after `from` where the loop raises. */
  function FirstRaise(cur: Dict<Share>, prev: Dict<Share>, constants: Dict<ShareRange>,
                      key: string, delta: real, total: real, from: nat): (r: Option<nat>)
    requires from <= |cur| && total != 0.0
    ensures r.Some? ==> from <= r.value < |cur| && Adjusted(cur, prev, constants, key, delta, total, r.value).Raised?
    ensures forall j | from <= j < |cur| && (r.None? || j < r.value) ::
      Adjusted(cur, prev, constants, key, delta, total, j).Ok?
    decreases |cur| - from
  {
    if from == |cur| then None
    else if Adjusted(cur, prev, constants, key, delta, total, from).Raised? then Some(from)
    else FirstRaise(cur, prev, constants, key, delta, total, from + 1)
  }

  /** `current` once the loop has rewritten its first n positions. */
  function AdjustedUpTo(cur: Dict<Share>, prev: Dict<Share>, constants: Dict<ShareRange>,
                        key: string, delta: real, total: real, n: nat): (r: Dict<Share>)
    requires n <= |cur| && total != 0.0
    requires forall j | 0 <= j < n :: Adjusted(cur, prev, constants, key, delta, total, j).Ok?
    ensures |r| == |cur| && Keys(r) == Keys(cur)
    ensures forall j | 0 <= j < |cur| :: r[j].0 == cur[j].0
  {
    seq(|cur|, j requires 0 <= j < |cur| =>
      if j < n then (cur[j].0, Adjusted(cur, prev, constants, key, delta, total, j).value) else cur[j])
  }

  /** One more step of the loop rewrites one more position. */
  lemma AdjustedStep(cur: Dict<Share>, prev: Dict<Share>, constants: Dict<ShareRange>,
                     key: string, delta: real, total: real, j: nat)
    requires j < |cur| && total != 0.0
    requires forall m | 0 <= m <= j :: Adjusted(cur, prev, constants, key, delta, total, m).Ok?
    ensures AdjustedUpTo(cur, prev, constants, key, delta, total, j + 1)
      == AdjustedUpTo(cur, prev, constants, key, delta, total, j)[j := (cur[j].0, Adjusted(cur, prev, constants, key, delta, total, j).value)]
  {
  }

  /** The loop raises first at j when every earlier position succeeded. */
  lemma RaiseAt(cur: Dict<Share>, prev: Dict<Share>, constants: Dict<ShareRange>,
                key: string, delta: real, total: real, j: nat)
    requires j < |cur| && total != 0.0
    requires forall m | 0 <= m < j :: Adjusted(cur, prev, constants, key, delta, total, m).Ok?
    requires cur[j].0 != key && (!In(constants, cur[j].0) || !In(prev, cur[j].0))
    ensures FirstRaise(cur, prev, constants, key, delta, total, 0) == Some(j)
  {
    assert Adjusted(cur, prev, constants, key, delta, total, j).Raised?;
  }

  /** Rewriting values under the same keys keeps the keys unique. */
  lemma SameKeysUnique(a: Dict<Share>, b: Dict<Share>)
    requires UniqueKeys(a) && Keys(a) == Keys(b)
    ensures UniqueKeys(b)
  {
    forall i, j | 0 <= i < j < |b|
      ensures b[i].0 != b[j].0
    {
      assert Keys(a)[i] == Keys(b)[i] && Keys(a)[j] == Keys(b)[j];
    }
  }

  /** The position of the edited item, when the handler goes as far as
      setting the flag: a snapshot exists, differs from `current` as a dict,
      some item is edited, and its key is not the falsy empty string. */
  function EditOf(s: Session): (r: Option<nat>)
    ensures r.Some? ==> s.previous.Some? && r.value < |s.current| && Edited(s.current, s.previous.value, r.value)
    ensures r.Some? ==> s.current[r.value].0 != ""
  {
    if s.previous.None? || ToMap(s.current) == ToMap(s.previous.value) then None
    else match FirstEdited(s.current, s.previous.value, 0)
      case None => None
      case Some(i) => if s.current[i].0 == "" then None else Some(i)
  }

  /** The edited key. */
  function EditKey(s: Session): string
    requires EditOf(s).Some?
  {
    s.current[EditOf(s).value].0
  }

  /** `current[key]['percentual'] - previous[key]['percentual']`. */
  function Delta(s: Session): real
    requires EditOf(s).Some? && In(s.previous.value, EditKey(s))
  {
    s.current[EditOf(s).value].1.percentual - Get(s.previous.value, EditKey(s)).value.percentual
  }

  /** The others' previous total, the weight the delta is spread by. */
  function Total(s: Session): real
    requires EditOf(s).Some?
  {
    OthersTotal(s.previous.value, EditKey(s))
  }

  /** The handler reaches the spreading loop: an edit, a previous value for
      the edited key, and a positive total of the others. */
  predicate Spreads(s: Session) {
    EditOf(s).Some? && In(s.previous.value, EditKey(s)) && Total(s) > 0.0
  }

  /** The share the loop leaves at position j of a spreading session. */
  function SpreadAt(s: Session, constants: Dict<ShareRange>, j: nat): Outcome<Share>
    requires Spreads(s) && j < |s.current|
  {
    Adjusted(s.current, s.previous.value, constants, EditKey(s), Delta(s), Total(s), j)
  }

  /** The loop's first failing position in a spreading session. */
  function SpreadRaise(s: Session, constants: Dict<ShareRange>): Option<nat>
    requires Spreads(s)
  {
    FirstRaise(s.current, s.previous.value, constants, EditKey(s), Delta(s), Total(s), 0)
  }

  /** What one call of handle_percentage_redistribution does to the session. */
  function React(s: Session, constants: Dict<ShareRange>): (r: Reaction)
    ensures Keys(r.after.current) == Keys(s.current)
  {
    if s.previous.None? then Reaction(Session(s.current, Some(s.current), s.occurred), None)
    else if EditOf(s).None? then Reaction(s, None)
    else if !In(s.previous.value, EditKey(s)) then Reaction(Session(s.current, s.previous, true), Some(KeyError))
    else if Total(s) <= 0.0 then Reaction(Session(s.current, Some(s.current), true), None)
    else
      var cur, prev := s.current, s.previous.value;
      match SpreadRaise(s, constants)
      case Some(j) =>
        Reaction(Session(AdjustedUpTo(cur, prev, constants, EditKey(s), Delta(s), Total(s), j), s.previous, true), Some(KeyError))
      case None =>
        var c := AdjustedUpTo(cur, prev, constants, EditKey(s), Delta(s), Total(s), |cur|);
        Reaction(Session(c, Some(c), true), None)
  }

  // ------------------------------------------------------------ properties

  /** When `current` equals the snapshot as a dict, the call changes nothing. */
  lemma UnchangedWhenEqual(s: Session, constants: Dict<ShareRange>)
    requires s.previous.Some? && ToMap(s.current) == ToMap(s.previous.value)
    ensures React(s, constants) == Reaction(s, None)
  {
  }

  /** When no item is edited (or the edited key is the empty string), the
      call changes nothing, not even the snapshot. */
  lemma UnchangedWithoutEdit(s: Session, constants: Dict<ShareRange>)
    requires s.previous.Some? && EditOf(s).None?
    ensures React(s, constants) == Reaction(s, None)
  {
  }

  /** A call that raises nothing either changes nothing or leaves the snapshot
      equal to the new `current`. */
  lemma QuietCallRefreshes(s: Session, constants: Dict<ShareRange>)
    requires React(s, constants).escaped.None?
    ensures var t := React(s, constants).after; t == s || t.previous == Some(t.current)
  {
  }

  /** A call that raises nothing leaves a session on which an immediate
      second call is a no-op. */
  lemma SecondCallIsNoOp(s: Session, constants: Dict<ShareRange>)
    requires React(s, constants).escaped.None?
    ensures var t := React(s, constants).after; React(t, constants) == Reaction(t, None)
  {
    QuietCallRefreshes(s, constants);
    var t := React(s, constants).after;
    if t != s {
      UnchangedWhenEqual(t, constants);
    }
  }

  /** The edited item itself keeps its percentual: it is never adjusted or clamped. */
  lemma EditedItemKept(s: Session, constants: Dict<ShareRange>)
    requires EditOf(s).Some?
    ensures React(s, constants).after.current[EditOf(s).value] == s.current[EditOf(s).value]
  {
    if Spreads(s) {
      assert SpreadAt(s, constants, EditOf(s).value) == Ok(s.current[EditOf(s).value].1);
    }
  }

  /** After a completed redistribution every other item lies within its row's
      [min, max] (at min when the row's bounds cross). */
  lemma OthersWithinBounds(s: Session, constants: Dict<ShareRange>, j: nat)
    requires UniqueKeys(s.current)
    requires Spreads(s) && React(s, constants).escaped.None?
    requires j < |s.current| && j != EditOf(s).value
    ensures In(constants, s.current[j].0)
    ensures var row := Get(constants, s.current[j].0).value;
      var p := React(s, constants).after.current[j].1.percentual;
      row.min <= p && (row.min <= row.max ==> p <= row.max)
  {
    assert SpreadRaise(s, constants).None?;
    assert SpreadAt(s, constants, j).Ok?;
    assert s.current[j].0 != EditKey(s);
  }

  /** When the others' previous values add up to zero or less, they keep their
      values; the snapshot is still refreshed. */
  lemma OthersKeptWithoutWeight(s: Session, constants: Dict<ShareRange>)
    requires EditOf(s).Some? && In(s.previous.value, EditKey(s)) && Total(s) <= 0.0
    ensures React(s, constants) == Reaction(Session(s.current, Some(s.current), true), None)
  {
  }

  // ------------------------------------------------------ sum preservation

  /** The percentuals of a set, in order. */
  function Percentuals(d: Dict<Share>): (ps: seq<real>)
    ensures |ps| == |d| && forall i | 0 <= i < |d| :: ps[i] == d[i].1.percentual
  {
    seq(|d|, i requires 0 <= i < |d| => d[i].1.percentual)
  }

  /** The percentuals of the items other than `key`, with 0 in key's place. */
  function Masked(d: Dict<Share>, key: string): (ps: seq<real>)
    ensures |ps| == |d| && forall i | 0 <= i < |d| :: ps[i] == if d[i].0 != key then d[i].1.percentual else 0.0
  {
    seq(|d|, i requires 0 <= i < |d| => if d[i].0 != key then d[i].1.percentual else 0.0)
  }

  lemma {:induction false} OthersTotalIsMaskedSum(d: Dict<Share>, key: string)
    ensures OthersTotal(d, key) == Sum(Masked(d, key))
  {
    if d != [] {
      OthersTotalIsMaskedSum(d[..|d| - 1], key);
      assert Masked(d, key)[..|d| - 1] == Masked(d[..|d| - 1], key);
    }
  }

  /** Replacing one term changes the sum by the difference. */
  lemma {:induction false} SumUpdate(xs: seq<real>, i: nat, v: real)
    requires i < |xs|
    ensures Sum(xs[i := v]) == Sum(xs) - xs[i] + v
  {
    var ys := xs[i := v];
    if i < |xs| - 1 {
      assert ys[..|ys| - 1] == xs[..|xs| - 1][i := v];
      SumUpdate(xs[..|xs| - 1], i, v);
    } else {
      assert ys[..|ys| - 1] == xs[..|xs| - 1];
    }
  }

  /** Subtracting w × b[j] from every a[j] takes w × Sum(b) off the sum. */
  lemma {:induction false} SumLessWeighted(a: seq<real>, b: seq<real>, w: real, c: seq<real>)
    requires |a| == |b| == |c|
    requires forall j | 0 <= j < |a| :: c[j] == a[j] - w * b[j]
    ensures Sum(c) == Sum(a) - w * Sum(b)
  {
    if a != [] {
      var n := |a| - 1;
      SumLessWeighted(a[..n], b[..n], w, c[..n]);
    }
  }

  lemma ProportionalShare(delta: real, p: real, total: real)
    requires total != 0.0
    ensures delta * (p / total) == (delta / total) * p
  {
  }

  lemma WeightOfTotal(delta: real, total: real)
    requires total != 0.0
    ensures (delta / total) * total == delta
  {
  }

  /** The set before and after the edit has the same keys in the same order,
      only the edited item differs from the snapshot, every other key has its
      constants row, and no clamp fires. */
  ghost predicate SingleUnclampedEdit(s: Session, constants: Dict<ShareRange>)
    requires Spreads(s)
  {
    var i := EditOf(s).value;
    var cur, prev := s.current, s.previous.value;
    && UniqueKeys(prev) && Keys(cur) == Keys(prev)
    && (forall j | 0 <= j < |cur| && j != i :: cur[j].1.percentual == prev[j].1.percentual)
    && (forall j | 0 <= j < |cur| && j != i :: In(constants, cur[j].0)
          && var row := Get(constants, cur[j].0).value;
             row.min <= Lowered(cur[j].1.percentual, Delta(s), prev[j].1.percentual, Total(s)) <= row.max)
  }

  /** The arithmetic of the spread: the edited term grows by delta, every
      other term gives up delta × its previous share of `total`, and `total`
      is the sum of the others' previous values, so the sum is unchanged. */
  lemma SpreadKeepsSum(pp: seq<real>, pc: seq<real>, pa: seq<real>, i: nat, delta: real, total: real)
    requires |pp| == |pc| == |pa| && i < |pp| && total != 0.0
    requires total == Sum(pp[i := 0.0])
    requires pc[i] == pp[i] + delta && forall j | 0 <= j < |pc| && j != i :: pc[j] == pp[j]
    requires forall j | 0 <= j < |pa| :: pa[j] == if j == i then pc[i] else Lowered(pc[j], delta, pp[j], total)
    ensures Sum(pa) == Sum(pp)
  {
    var masked := pp[i := 0.0];
    var w := delta / total;
    forall j | 0 <= j < |pa|
      ensures pa[j] == pc[j] - w * masked[j]
    {
      if j != i {
        ProportionalShare(delta, pp[j], total);
      }
    }
    SumLessWeighted(pc, masked, w, pa);
    WeightOfTotal(delta, total);
    assert pc == pp[i := pp[i] + delta];
    SumUpdate(pp, i, pp[i] + delta);
    SumUpdate(pp, i, 0.0);
  }

  /** Under a single unclamped edit the other keys are not the edited one and
      the snapshot holds each key at the same position as `current`. */
  lemma AlignedKeys(s: Session, constants: Dict<ShareRange>, j: nat)
    requires Spreads(s) && SingleUnclampedEdit(s, constants) && j < |s.current|
    ensures Get(s.previous.value, s.current[j].0) == Some(s.previous.value[j].1)
    ensures s.previous.value[j].0 == s.current[j].0
    ensures j != EditOf(s).value <==> s.current[j].0 != EditKey(s)
  {
    var i := EditOf(s).value;
    var cur, prev := s.current, s.previous.value;
    assert Keys(cur)[i] == Keys(prev)[i] && Keys(cur)[j] == Keys(prev)[j];
    FindAt(prev, j);
  }

  /** Under a single unclamped edit the loop's lookups succeed at position j
      and leave the unclamped value there. */
  lemma UnclampedAt(s: Session, constants: Dict<ShareRange>, j: nat)
    requires Spreads(s) && SingleUnclampedEdit(s, constants) && j < |s.current|
    ensures SpreadAt(s, constants, j).Ok?
    ensures SpreadAt(s, constants, j).value.percentual ==
      if j == EditOf(s).value then s.current[j].1.percentual
      else Lowered(s.current[j].1.percentual, Delta(s), s.previous.value[j].1.percentual, Total(s))
  {
    AlignedKeys(s, constants, j);
    AdjustedUnclamped(s.current, s.previous.value, constants, EditKey(s), Delta(s), Total(s), j);
  }

  /** One step of the loop when both lookups succeed and the clamp does not fire. */
  lemma AdjustedUnclamped(cur: Dict<Share>, prev: Dict<Share>, constants: Dict<ShareRange>,
                          key: string, delta: real, total: real, j: nat)
    requires j < |cur| && total != 0.0
    requires cur[j].0 != key ==> In(constants, cur[j].0) && In(prev, cur[j].0)
    requires cur[j].0 != key ==>
      var row, p := Get(constants, cur[j].0).value, Get(prev, cur[j].0).value;
      row.min <= Lowered(cur[j].1.percentual, delta, p.percentual, total) <= row.max
    ensures Adjusted(cur, prev, constants, key, delta, total, j).Ok?
    ensures Adjusted(cur, prev, constants, key, delta, total, j).value.percentual ==
      if cur[j].0 == key then cur[j].1.percentual
      else Lowered(cur[j].1.percentual, delta, Get(prev, cur[j].0).value.percentual, total)
  {
  }

  /** Under a single unclamped edit the loop runs to the end. */
  lemma SpreadCompletes(s: Session, constants: Dict<ShareRange>)
    requires Spreads(s) && SingleUnclampedEdit(s, constants)
    ensures SpreadRaise(s, constants).None?
  {
    var cur, prev, key := s.current, s.previous.value, EditKey(s);
    forall j | 0 <= j < |cur|
      ensures Adjusted(cur, prev, constants, key, Delta(s), Total(s), j).Ok?
    {
      UnclampedAt(s, constants, j);
    }
    NoRaiseWhenAllOk(cur, prev, constants, key, Delta(s), Total(s));
  }

  lemma NoRaiseWhenAllOk(cur: Dict<Share>, prev: Dict<Share>, constants: Dict<ShareRange>,
                         key: string, delta: real, total: real)
    requires total != 0.0
    requires forall j | 0 <= j < |cur| :: Adjusted(cur, prev, constants, key, delta, total, j).Ok?
    ensures FirstRaise(cur, prev, constants, key, delta, total, 0).None?
  {
  }

  /** The new current once the loop has run to the end. */
  function SpreadResult(s: Session, constants: Dict<ShareRange>): Dict<Share>
    requires Spreads(s) && SpreadRaise(s, constants).None?
  {
    AdjustedUpTo(s.current, s.previous.value, constants, EditKey(s), Delta(s), Total(s), |s.current|)
  }

  /** A loop that runs to the end leaves its result as both current and snapshot. */
  lemma SpreadOutcome(s: Session, constants: Dict<ShareRange>)
    requires Spreads(s) && SpreadRaise(s, constants).None?
    ensures React(s, constants) == Reaction(Session(SpreadResult(s, constants), Some(SpreadResult(s, constants)), true), None)
  {
  }

  /** Under a single unclamped edit, the new percentuals are the unclamped ones. */
  lemma SpreadValues(s: Session, constants: Dict<ShareRange>, j: nat)
    requires Spreads(s) && SingleUnclampedEdit(s, constants) && SpreadRaise(s, constants).None?
    requires j < |s.current|
    ensures Percentuals(SpreadResult(s, constants))[j] ==
      if j == EditOf(s).value then Percentuals(s.current)[j]
      else Lowered(Percentuals(s.current)[j], Delta(s), Percentuals(s.previous.value)[j], Total(s))
  {
    UnclampedAt(s, constants, j);
  }

  lemma MaskedIsUpdate(prev: Dict<Share>, key: string, i: nat)
    requires UniqueKeys(prev) && i < |prev| && prev[i].0 == key
    ensures Masked(prev, key) == Percentuals(prev)[i := 0.0]
  {
    assert forall j | 0 <= j < |prev| :: Masked(prev, key)[j] == Percentuals(prev)[i := 0.0][j];
  }

  /** With a single edited key, a positive total of the others and no clamp,
      each other item gives up delta × its previous share, so the percentuals
      still add up to what the snapshot added up to. */
  lemma SumPreserved(s: Session, constants: Dict<ShareRange>)
    requires Spreads(s) && SingleUnclampedEdit(s, constants)
    ensures React(s, constants).escaped.None?
    ensures Sum(Percentuals(React(s, constants).after.current)) == Sum(Percentuals(s.previous.value))
  {
    SpreadCompletes(s, constants);
    SpreadOutcome(s, constants);
    SpreadResultSum(s, constants);
  }

  lemma SpreadResultSum(s: Session, constants: Dict<ShareRange>)
    requires Spreads(s) && SingleUnclampedEdit(s, constants) && SpreadRaise(s, constants).None?
    ensures Sum(Percentuals(SpreadResult(s, constants))) == Sum(Percentuals(s.previous.value))
  {
    var i, prev, key := EditOf(s).value, s.previous.value, EditKey(s);
    SpreadValuesAll(s, constants);
    AlignedKeys(s, constants, i);
    MaskedIsUpdate(prev, key, i);
    OthersTotalIsMaskedSum(prev, key);
    SpreadKeepsSum(Percentuals(prev), Percentuals(s.current), Percentuals(SpreadResult(s, constants)), i, Delta(s), Total(s));
  }

  lemma SpreadValuesAll(s: Session, constants: Dict<ShareRange>)
    requires Spreads(s) && SingleUnclampedEdit(s, constants) && SpreadRaise(s, constants).None?
    ensures var i, pc, pp := EditOf(s).value, Percentuals(s.current), Percentuals(s.previous.value);
      forall j | 0 <= j < |s.current| :: Percentuals(SpreadResult(s, constants))[j] ==
        if j == i then pc[i] else Lowered(pc[j], Delta(s), pp[j], Total(s))
  {
    forall j | 0 <= j < |s.current|
      ensures Percentuals(SpreadResult(s, constants))[j] ==
        if j == EditOf(s).value then Percentuals(s.current)[j]
        else Lowered(Percentuals(s.current)[j], Delta(s), Percentuals(s.previous.value)[j], Total(s))
    {
      SpreadValues(s, constants, j);
    }
  }

  // --------------------------------------------------------- the handler

  /** The session store of one percentage set. */
  class Redistributor {
    var current: Dict<Share>
    var previous: Option<Dict<Share>>
    var occurred: bool

    /** Both sets are Python dicts: no key twice. */
    ghost predicate Valid()
      reads this
    {
      UniqueKeys(current) && (previous.Some? ==> UniqueKeys(previous.value))
    }

    function State(): Session
      reads this
    {
      Session(current, previous, occurred)
    }

    /** A fresh session: the set as first shown, no snapshot yet. */
    constructor (initial: Dict<Share>)
      requires UniqueKeys(initial)
      ensures Valid() && current == initial && previous.None? && !occurred
    {
      current := initial;
      previous := None;
      occurred := false;
    }

    /** One call of the handler with the set's constants rows; the exception
        that escapes, if any, is returned. */
    method Handle(constants: Dict<ShareRange>) returns (escaped: Option<Exc>)
      requires Valid()
      modifies this
      ensures Valid()
      ensures React(old(State()), constants) == Reaction(State(), escaped)
    {
      ghost var s := State();
      if previous.None? {
        previous := Some(current);
        return None;
      }
      var prev := previous.value;
      if ToMap(current) == ToMap(prev) {
        return None;
      }
      var changed := FirstEdited(current, prev, 0);
      if changed.None? || current[changed.value].0 == "" {
        return None;
      }
      assert EditOf(s) == changed;
      var key := current[changed.value].0;
      occurred := true;
      var before := Get(prev, key);
      if before.None? {
        return Some(KeyError);
      }
      var delta := current[changed.value].1.percentual - before.value.percentual;
      var total := OthersTotal(prev, key);
      assert key == EditKey(s) && delta == Delta(s) && total == Total(s);
      if total > 0.0 {
        ghost var cur0 := current;
        escaped := SpreadDelta(prev, constants, key, delta, total);
        SameKeysUnique(cur0, current);
        if escaped.Some? {
          return;
        }
      }
      previous := Some(current);
      return None;
    }

    /** The loop over `current` that gives every item but `key` its share of
        the delta, clamped into its constants row; it stops at the first
        KeyError, leaving the items before it rewritten. */
    method SpreadDelta(prev: Dict<Share>, constants: Dict<ShareRange>, key: string, delta: real, total: real)
      returns (escaped: Option<Exc>)
      requires total > 0.0
      modifies this
      ensures previous == old(previous) && occurred == old(occurred)
      ensures var r := FirstRaise(old(current), prev, constants, key, delta, total, 0);
        && (r.Some? ==> escaped == Some(KeyError) && current == AdjustedUpTo(old(current), prev, constants, key, delta, total, r.value))
        && (r.None? ==> escaped.None? && current == AdjustedUpTo(old(current), prev, constants, key, delta, total, |old(current)|))
    {
      ghost var cur0 := current;
      var j := 0;
      while j < |current|
        invariant 0 <= j <= |current| == |cur0|
        invariant forall m | 0 <= m < j :: Adjusted(cur0, prev, constants, key, delta, total, m).Ok?
        invariant current == AdjustedUpTo(cur0, prev, constants, key, delta, total, j)
        invariant previous == old(previous) && occurred == old(occurred)
      {
        var (item, values) := current[j];
        assert current[j] == cur0[j];
        if item != key {
          var row := Get(constants, item);
          if row.None? {
            RaiseAt(cur0, prev, constants, key, delta, total, j);
            return Some(KeyError);
          }
          var p := Get(prev, item);
          if p.None? {
            RaiseAt(cur0, prev, constants, key, delta, total, j);
            return Some(KeyError);
          }
          var newPercent := values.percentual - delta * (p.value.percentual / total);
          assert newPercent == Lowered(values.percentual, delta, p.value.percentual, total);
          current := current[j := (item, Share(ClampShare(newPercent, row.value.min, row.value.max), values.fonte))];
        }
        AdjustedStep(cur0, prev, constants, key, delta, total, j);
        j := j + 1;
      }
      assert FirstRaise(cur0, prev, constants, key, delta, total, 0).None?;
      return None;
    }
  }
}
