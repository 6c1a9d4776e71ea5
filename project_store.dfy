/** The in-memory list logic of the project store in prognoz/utils.py:
    save_project (replace by id, or append with the next id), delete_project
    (drop every record with an id) and load_project (find by id and rewrite
    legacy share sets of bare numbers into {percentual, fonte} entries). The
    JSON file under them is not modelled: every operation takes the list and
    returns the new one. */
module ProjectStore {
  import opened Wrappers
  import opened PyRuntime

  /** A stored project: its id and every other key of its dict. */
  datatype Project = Project(id: int, fields: Dict<Json>)

  /** The dict handed to save_project: `info.get("id")` and the other keys. */
  datatype Info = Info(id: Option<int>, fields: Dict<Json>)

  /** `if info.get("id"):` — None and 0 are falsy. */
  predicate HasId(info: Info) {
    info.id.Some? && info.id.value != 0
  }

  // ----------------------------------------------------------- save_project

  /** `max(p["id"] for p in projs)`. */
  function MaxId(projs: seq<Project>): (m: int)
    requires projs != []
    ensures forall i | 0 <= i < |projs| :: projs[i].id <= m
    ensures exists i | 0 <= i < |projs| :: projs[i].id == m
  {
    if |projs| == 1 then projs[0].id
    else
      var m := MaxId(projs[1..]);
      assert forall i | 1 <= i < |projs| :: projs[i] == projs[1..][i - 1];
      if projs[0].id >= m then projs[0].id else m
  }

  /** The id a new project gets: one more than the largest, or 1 for an empty list. */
  function NextId(projs: seq<Project>): (n: int)
    ensures projs == [] ==> n == 1
    ensures forall i | 0 <= i < |projs| :: projs[i].id < n
    ensures projs != [] ==> exists i | 0 <= i < |projs| :: n == projs[i].id + 1
  {
    if projs == [] then 1 else MaxId(projs) + 1
  }

  /** save_project on the loaded list. With an id, every record holding that
      id is replaced by the info; without one, the info gets the next id and
      the creation time `now` and goes at the end. */
  function SaveProject(projs: seq<Project>, info: Info, now: string): (r: seq<Project>)
    ensures HasId(info) ==> |r| == |projs| && forall i | 0 <= i < |projs| ::
      r[i] == (if projs[i].id != info.id.value then projs[i] else Project(info.id.value, info.fields))
    ensures !HasId(info) ==>
      r == projs + [Project(NextId(projs), Set(info.fields, "created_at", JStr(now)))]
  {
    if HasId(info) then
      seq(|projs|, i requires 0 <= i < |projs| =>
        if projs[i].id != info.id.value then projs[i] else Project(info.id.value, info.fields))
    else projs + [Project(NextId(projs), Set(info.fields, "created_at", JStr(now)))]
  }

  /** The ids of a list, in order. */
  function Ids(projs: seq<Project>): (ids: seq<int>)
    ensures |ids| == |projs| && forall i | 0 <= i < |projs| :: ids[i] == projs[i].id
  {
    seq(|projs|, i requires 0 <= i < |projs| => projs[i].id)
  }

  /** A new project's id is held by no other record, and the ids of the
      records already stored do not change. */
  lemma SaveNewIdIsFresh(projs: seq<Project>, info: Info, now: string)
    requires !HasId(info)
    ensures var r := SaveProject(projs, info, now);
      && Ids(r) == Ids(projs) + [NextId(projs)]
      && NextId(projs) !in Ids(projs)
  {
  }

  /** Saving with an id that no record holds leaves the list as it was: the
      comprehension only replaces, it never adds. */
  lemma SaveUnknownIdIsNoOp(projs: seq<Project>, info: Info, now: string)
    requires HasId(info) && info.id.value !in Ids(projs)
    ensures SaveProject(projs, info, now) == projs
  {
    var r := SaveProject(projs, info, now);
    forall i | 0 <= i < |projs|
      ensures r[i] == projs[i]
    {
      assert Ids(projs)[i] == projs[i].id;
    }
  }

  /** Saving an id keeps the ids of the list, and after it every record with
      that id holds the saved fields. */
  lemma SaveWithIdKeepsIds(projs: seq<Project>, info: Info, now: string)
    requires HasId(info)
    ensures var r := SaveProject(projs, info, now);
      && Ids(r) == Ids(projs)
      && forall i | 0 <= i < |r| && r[i].id == info.id.value :: r[i].fields == info.fields
  {
  }

  // --------------------------------------------------------- delete_project

  /** The number of records holding id pid. */
  function HeldBy(projs: seq<Project>, pid: int): nat {
    if projs == [] then 0
    else HeldBy(projs[..|projs| - 1], pid) + (if projs[|projs| - 1].id == pid then 1 else 0)
  }

  /** The records of a list whose id differs from pid, in order. */
  function Kept(projs: seq<Project>, pid: int): seq<Project> {
    if projs == [] then []
    else
      var last := projs[|projs| - 1];
      Kept(projs[..|projs| - 1], pid) + (if last.id != pid then [last] else [])
  }

  lemma {:induction false} KeptFacts(projs: seq<Project>, pid: int)
    ensures forall p | p in Kept(projs, pid) :: p in projs && p.id != pid
    ensures forall p | p in projs && p.id != pid :: p in Kept(projs, pid)
    ensures |Kept(projs, pid)| == |projs| - HeldBy(projs, pid)
  {
    if projs != [] {
      KeptFacts(projs[..|projs| - 1], pid);
      assert forall p | p in projs[..|projs| - 1] :: p in projs;
      assert forall p | p in projs :: p in projs[..|projs| - 1] || p == projs[|projs| - 1];
    }
  }

  lemma {:induction false} KeptDistributes(a: seq<Project>, b: seq<Project>, pid: int)
    ensures Kept(a + b, pid) == Kept(a, pid) + Kept(b, pid)
  {
    if b == [] {
      assert a + b == a;
    } else {
      var ab := a + b;
      assert ab[..|ab| - 1] == a + b[..|b| - 1];
      assert ab[|ab| - 1] == b[|b| - 1];
      KeptDistributes(a, b[..|b| - 1], pid);
    }
  }

  /** delete_project: the records whose id differs from pid, in order. */
  function DeleteProject(projs: seq<Project>, pid: int): (r: seq<Project>)
    ensures forall p | p in r :: p in projs && p.id != pid
    ensures forall p | p in projs && p.id != pid :: p in r
    ensures |r| == |projs| - HeldBy(projs, pid)
  {
    KeptFacts(projs, pid);
    Kept(projs, pid)
  }

  /** The comprehension works record by record: a single record is kept
      exactly when its id differs, and deleting from two lists joined is
      joining what is kept of each, so order and repeats are preserved. */
  lemma DeleteDistributes(a: seq<Project>, b: seq<Project>, pid: int)
    ensures DeleteProject(a + b, pid) == DeleteProject(a, pid) + DeleteProject(b, pid)
    ensures |a| == 1 ==> DeleteProject(a, pid) == if a[0].id != pid then a else []
  {
    KeptDistributes(a, b, pid);
    if |a| == 1 {
      assert a[..0] == [];
    }
  }

  /** Deleting an id no record holds changes nothing, and deleting twice is
      deleting once. */
  lemma {:induction false} DeleteAbsentIsNoOp(projs: seq<Project>, pid: int)
    requires forall i | 0 <= i < |projs| :: projs[i].id != pid
    ensures DeleteProject(projs, pid) == projs
  {
    if projs != [] {
      DeleteAbsentIsNoOp(projs[..|projs| - 1], pid);
      assert projs[..|projs| - 1] + [projs[|projs| - 1]] == projs;
    }
  }

  lemma DeleteIdempotent(projs: seq<Project>, pid: int)
    ensures DeleteProject(DeleteProject(projs, pid), pid) == DeleteProject(projs, pid)
  {
    var r := DeleteProject(projs, pid);
    forall i | 0 <= i < |r|
      ensures r[i].id != pid
    {
      assert r[i] in r;
    }
    DeleteAbsentIsNoOp(r, pid);
  }

  /** Deleting the project just created gives the list back. */
  lemma DeleteUndoesSave(projs: seq<Project>, info: Info, now: string)
    requires !HasId(info)
    ensures DeleteProject(SaveProject(projs, info, now), NextId(projs)) == projs
  {
    var r := SaveProject(projs, info, now);
    assert r[..|r| - 1] == projs;
    DeleteAbsentIsNoOp(projs, NextId(projs));
  }

  // ----------------------------------------------------------- load_project

  /** The first record with the id, if any (`next(..., None)`). */
  function FindProject(projs: seq<Project>, pid: int): (r: Option<Project>)
    ensures r.None? <==> forall i | 0 <= i < |projs| :: projs[i].id != pid
    ensures r.Some? ==> exists i | 0 <= i < |projs| ::
      && projs[i] == r.value && projs[i].id == pid
      && forall j | 0 <= j < i :: projs[j].id != pid
  {
    if projs == [] then None
    else if projs[0].id == pid then Some(projs[0])
    else
      var r := FindProject(projs[1..], pid);
      assert forall i | 1 <= i < |projs| :: projs[i] == projs[1..][i - 1];
      if r.Some? then
        ghost var k :| 0 <= k < |projs[1..]| && projs[1..][k] == r.value && projs[1..][k].id == pid
          && forall j | 0 <= j < k :: projs[1..][j].id != pid;
        assert projs[k + 1] == r.value;
        r
      else r
  }

  /** `{k: {"percentual": v, "fonte": "Manual"} for k, v in d.items()}`. */
  function Wrapped(d: Dict<Json>): (r: Dict<Json>)
    ensures |r| == |d| && forall i | 0 <= i < |d| :: r[i] == (d[i].0, ManualShare(d[i].1))
  {
    seq(|d|, i requires 0 <= i < |d| => (d[i].0, ManualShare(d[i].1)))
  }

  /** The rewrite of one share set: a truthy dict whose first value is a
      number has every value wrapped; a falsy value is kept; any other truthy
      value has no `.values()` and raises AttributeError. */
  function NormalizeShares(v: Json): (r: Outcome<Json>)
    ensures !Truthy(v) ==> r == Ok(v)
    ensures Truthy(v) && !v.JObj? ==> r == Raised(AttributeError)
    ensures v.JObj? && v.fields != [] && IsNumber(v.fields[0].1) ==> r == Ok(JObj(Wrapped(v.fields)))
    ensures v.JObj? && (v.fields == [] || !IsNumber(v.fields[0].1)) ==> r == Ok(v)
  {
    if !Truthy(v) then Ok(v)
    else if !v.JObj? then Raised(AttributeError)
    else if IsNumber(v.fields[0].1) then Ok(JObj(Wrapped(v.fields)))
    else Ok(v)
  }

  /** Wrapping keeps the keys and their order. */
  lemma WrappedKeepsKeys(d: Dict<Json>)
    ensures Keys(Wrapped(d)) == Keys(d)
  {
  }

  /** A normalized share set is left alone by a second normalization. */
  lemma NormalizeIdempotent(v: Json)
    requires NormalizeShares(v).Ok?
    ensures NormalizeShares(NormalizeShares(v).value) == NormalizeShares(v)
  {
  }

  /** The rewrite of one key of a record, when the record has it. */
  function NormalizeField(p: Project, key: string): (r: Outcome<Project>)
    ensures !In(p.fields, key) ==> r == Ok(p)
    ensures In(p.fields, key) ==> match NormalizeShares(GetOr(p.fields, key, JNull))
      case Raised(e) => r == Raised(e)
      case Ok(v) => r == Ok(Project(p.id, Set(p.fields, key, v)))
  {
    if !In(p.fields, key) then Ok(p)
    else match NormalizeShares(GetOr(p.fields, key, JNull))
      case Raised(e) => Raised(e)
      case Ok(v) => Ok(Project(p.id, Set(p.fields, key, v)))
  }

  /** load_project: the first record with the id, with its stage shares and
      then its indirect-cost shares rewritten. */
  function LoadProject(projs: seq<Project>, pid: int): (r: Outcome<Option<Project>>)
    ensures FindProject(projs, pid).None? ==> r == Ok(None)
    ensures FindProject(projs, pid).Some? ==>
      var p1 := NormalizeField(FindProject(projs, pid).value, "etapas_percentuais");
      (r.Ok? <==> p1.Ok? && NormalizeField(p1.value, "custos_indiretos_percentuais").Ok?)
    ensures r.Ok? && FindProject(projs, pid).Some? ==>
      r.value == Some(NormalizeField(NormalizeField(FindProject(projs, pid).value,
        "etapas_percentuais").value, "custos_indiretos_percentuais").value)
    ensures r.Ok? && r.value.Some? ==> r.value.value.id == pid
    ensures r.Ok? && r.value.Some? ==> Keys(r.value.value.fields) == Keys(FindProject(projs, pid).value.fields)
    ensures r.Raised? ==> r.exc == AttributeError
  {
    match FindProject(projs, pid)
    case None => Ok(None)
    case Some(p) =>
      match NormalizeField(p, "etapas_percentuais")
      case Raised(e) => Raised(e)
      case Ok(p1) =>
        match NormalizeField(p1, "custos_indiretos_percentuais")
        case Raised(e) => Raised(e)
        case Ok(p2) => Ok(Some(p2))
  }

  /** A record whose first stage share is a bare number is loaded with every
      stage value wrapped as a Manual share, under the same keys in the same
      order; the other keys of the record are not touched by that rewrite. */
  lemma LoadWrapsLegacyStages(p: Project, stages: Dict<Json>)
    requires Get(p.fields, "etapas_percentuais") == Some(JObj(stages))
    requires stages != [] && IsNumber(stages[0].1)
    ensures var r := NormalizeField(p, "etapas_percentuais");
      && r.Ok? && r.value.id == p.id
      && Get(r.value.fields, "etapas_percentuais") == Some(JObj(Wrapped(stages)))
      && Keys(r.value.fields) == Keys(p.fields)
      && Keys(Wrapped(stages)) == Keys(stages)
      && forall k | k != "etapas_percentuais" :: Get(r.value.fields, k) == Get(p.fields, k)
  {
    assert In(p.fields, "etapas_percentuais");
  }

  /** load_project on a record with a legacy numeric stage set and an
      indirect-cost set that needs no rewrite (missing, falsy, or a dict whose
      first value is not a number): the record comes back with its stages
      wrapped as Manual shares under the same keys, and every other key of
      the record as it was stored. */
  lemma LoadLegacyProject(projs: seq<Project>, pid: int, stages: Dict<Json>)
    requires FindProject(projs, pid).Some?
    requires Get(FindProject(projs, pid).value.fields, "etapas_percentuais") == Some(JObj(stages))
    requires stages != [] && IsNumber(stages[0].1)
    requires IndirectNeedsNoRewrite(Get(FindProject(projs, pid).value.fields, "custos_indiretos_percentuais"))
    ensures var r := LoadProject(projs, pid);
      && r.Ok? && r.value.Some? && r.value.value.id == pid
      && Get(r.value.value.fields, "etapas_percentuais") == Some(JObj(Wrapped(stages)))
      && Keys(r.value.value.fields) == Keys(FindProject(projs, pid).value.fields)
      && forall k | k != "etapas_percentuais" ::
           Get(r.value.value.fields, k) == Get(FindProject(projs, pid).value.fields, k)
  {
    var f := FindProject(projs, pid).value;
    LoadWrapsLegacyStages(f, stages);
    var p1 := NormalizeField(f, "etapas_percentuais").value;
    var c := Get(p1.fields, "custos_indiretos_percentuais");
    assert c == Get(f.fields, "custos_indiretos_percentuais");
    if c.Some? {
      assert In(p1.fields, "custos_indiretos_percentuais");
      assert GetOr(p1.fields, "custos_indiretos_percentuais", JNull) == c.value;
      assert NormalizeShares(c.value) == Ok(c.value);
    }
  }

  /** The indirect-cost set is left as it is by the rewrite. */
  predicate IndirectNeedsNoRewrite(c: Option<Json>) {
    c.None? || !Truthy(c.value) || (c.value.JObj? && !IsNumber(c.value.fields[0].1))
  }
}
