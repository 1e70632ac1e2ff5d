/**
 * The tag group manager: the stored list of groups and the operations
 * that list, look up, create, update and delete groups. Every change is
 * made in memory first and then saved; the outcome of saving is an
 * input, and a failed save reports its error with the change already
 * made.
 */
module TagGroupStore {
  import opened Wrappers
  import opened Checks
  import opened Strings
  import opened Errors
  import opened TagGroups
  import ProcessingConfig

  /** The error for a name another group already has. */
  function DuplicateNameMsg(name: string): (msg: string)
    ensures Contains(msg, Trim(name))
  {
    ContainsMiddle("分组名称 '", Trim(name), "' 已存在");
    "分组名称 '" + Trim(name) + "' 已存在"
  }

  /** The error for an id no group has. */
  function MissingIdMsg(id: string): (msg: string)
    ensures Contains(msg, id)
  {
    ContainsMiddle("分组 '", id, "' 不存在");
    "分组 '" + id + "' 不存在"
  }

  /** Some group is called `name`. */
  predicate NameTaken(groups: seq<TagGroup>, name: string) {
    exists i :: 0 <= i < |groups| && groups[i].name == name
  }

  /** Some group other than those with id `id` is called `name`. */
  predicate NameTakenByOther(groups: seq<TagGroup>, id: string, name: string) {
    exists i :: 0 <= i < |groups| && groups[i].id != id && groups[i].name == name
  }

  /** `iter().position(|g| g.id == id)`: the index of the first group with that id. */
  function Position(groups: seq<TagGroup>, id: string): (r: Option<nat>)
    ensures r.None? <==> forall i :: 0 <= i < |groups| ==> groups[i].id != id
    ensures r.Some? ==> (r.value < |groups| && groups[r.value].id == id
                         && forall j :: 0 <= j < r.value ==> groups[j].id != id)
  {
    if groups == [] then None
    else if groups[0].id == id then Some(0)
    else match Position(groups[1..], id)
      case None => None
      case Some(k) => Some(k + 1)
  }

  /** The error of a failed save, or the value when the save succeeded. */
  function AfterSave<T>(saved: Result<()>, value: T): (r: Result<T>)
    ensures r.Ok? <==> saved.Ok?
    ensures r.Ok? ==> r.value == value
    ensures r.Err? ==> r.error == saved.error
  {
    if saved.Err? then Err(saved.error) else Ok(value)
  }

  // ---------------------------------------------------------------------
  // The operations on the list of groups
  // ---------------------------------------------------------------------

  /**
   * `create_group`: refused when a group already has the trimmed name or
   * when `TagGroup::new` refuses; otherwise the new group is appended.
   */
  function CreateStep(groups: seq<TagGroup>, name: string, charts: seq<ChartConfig>, now: Clock, saved: Result<()>)
    : (seq<TagGroup>, Result<TagGroup>)
  {
    if NameTaken(groups, Trim(name)) then (groups, Err(Validation(DuplicateNameMsg(name))))
    else match NewGroup(name, charts, now)
      case Fail(msg) => (groups, Err(Validation(msg)))
      case Pass(g) => (groups + [g], AfterSave(saved, g))
  }

  /**
   * `update_group`: refused when another group has the trimmed name, when
   * no group has the id, or when `TagGroup::update` refuses; otherwise the
   * first group with the id is replaced by its update.
   */
  function UpdateStep(groups: seq<TagGroup>, id: string, name: string, charts: seq<ChartConfig>,
                      config: Option<ProcessingConfig.DataProcessingConfig>, now: Clock, saved: Result<()>)
    : (seq<TagGroup>, Result<TagGroup>)
  {
    if NameTakenByOther(groups, id, Trim(name)) then (groups, Err(Validation(DuplicateNameMsg(name))))
    else match Position(groups, id)
      case None => (groups, Err(NotFound(MissingIdMsg(id))))
      case Some(k) =>
        match Update(groups[k], name, charts, config, now)
        case Fail(msg) => (groups, Err(Validation(msg)))
        case Pass(g) => (groups[k := g], AfterSave(saved, g))
  }

  /** `delete_group`: the first group with the id removed, or NotFound. */
  function DeleteStep(groups: seq<TagGroup>, id: string, saved: Result<()>): (seq<TagGroup>, Result<()>)
  {
    match Position(groups, id)
    case None => (groups, Err(NotFound(MissingIdMsg(id))))
    case Some(k) => (groups[..k] + groups[k + 1..], AfterSave(saved, ()))
  }

  // ---------------------------------------------------------------------
  // What the operations promise
  // ---------------------------------------------------------------------

  /**
   * Creating: a taken name or a refused group is a validation error that
   * changes nothing; otherwise exactly one group, the one `TagGroup::new`
   * builds, is appended, and it stays appended even when saving fails.
   */
  lemma CreateFacts(groups: seq<TagGroup>, name: string, charts: seq<ChartConfig>, now: Clock, saved: Result<()>)
    ensures var (gs, r) := CreateStep(groups, name, charts, now, saved);
      && (NameTaken(groups, Trim(name)) ==> gs == groups && r == Err(Validation(DuplicateNameMsg(name))))
      && (!NameTaken(groups, Trim(name)) && NewGroup(name, charts, now).Fail? ==>
            gs == groups && r == Err(Validation(NewGroup(name, charts, now).reason)))
      && (!NameTaken(groups, Trim(name)) && NewGroup(name, charts, now).Pass? ==>
            gs == groups + [NewGroup(name, charts, now).value] && |gs| == |groups| + 1
            && (r.Ok? <==> saved.Ok?) && (r.Ok? ==> r.value == gs[|gs| - 1]))
  {
  }

  /** No two groups share a name. */
  predicate DistinctNames(groups: seq<TagGroup>) {
    forall i, j :: 0 <= i < j < |groups| ==> groups[i].name != groups[j].name
  }

  /** No two groups share an id. */
  predicate DistinctIds(groups: seq<TagGroup>) {
    forall i, j :: 0 <= i < j < |groups| ==> groups[i].id != groups[j].id
  }

  /** Creating a group keeps the names distinct. */
  lemma CreateKeepsNamesDistinct(groups: seq<TagGroup>, name: string, charts: seq<ChartConfig>, now: Clock, saved: Result<()>)
    requires DistinctNames(groups)
    ensures DistinctNames(CreateStep(groups, name, charts, now, saved).0)
  {
    var gs := CreateStep(groups, name, charts, now, saved).0;
    if gs != groups {
      forall i, j | 0 <= i < j < |gs| ensures gs[i].name != gs[j].name {
        if j == |groups| {
          assert gs[j].name == Trim(name);
          assert gs[i] == groups[i];
        }
      }
    }
  }

  /**
   * Updating: a name another group has is a validation error, an unknown
   * id is NotFound, a refused update is a validation error, and each
   * leaves the list as it was; otherwise only the first group with the id
   * changes, into what `TagGroup::update` makes of it.
   */
  lemma UpdateFacts(groups: seq<TagGroup>, id: string, name: string, charts: seq<ChartConfig>,
                    config: Option<ProcessingConfig.DataProcessingConfig>, now: Clock, saved: Result<()>)
    ensures var (gs, r) := UpdateStep(groups, id, name, charts, config, now, saved);
      && |gs| == |groups|
      && (NameTakenByOther(groups, id, Trim(name)) ==> gs == groups && r == Err(Validation(DuplicateNameMsg(name))))
      && (!NameTakenByOther(groups, id, Trim(name)) && Position(groups, id).None? ==>
            gs == groups && r == Err(NotFound(MissingIdMsg(id))))
      && (!NameTakenByOther(groups, id, Trim(name)) && Position(groups, id).Some? ==>
            var k := Position(groups, id).value;
            var u := Update(groups[k], name, charts, config, now);
            && (u.Fail? ==> gs == groups && r == Err(Validation(u.reason)))
            && (u.Pass? ==> gs[k] == u.value && (r.Ok? <==> saved.Ok?) && (r.Ok? ==> r.value == u.value))
            && (forall i :: 0 <= i < |gs| && i != k ==> gs[i] == groups[i]))
  {
    var step := UpdateStep(groups, id, name, charts, config, now, saved);
    if NameTakenByOther(groups, id, Trim(name)) {
      assert step == (groups, Err(Validation(DuplicateNameMsg(name))));
    } else {
      match Position(groups, id)
      case None =>
        assert step == (groups, Err(NotFound(MissingIdMsg(id))));
      case Some(k) =>
        match Update(groups[k], name, charts, config, now)
        case Fail(msg) =>
          assert step == (groups, Err(Validation(msg)));
        case Pass(g) =>
          assert step == (groups[k := g], AfterSave(saved, g));
    }
  }

  /** With distinct ids, updating a group keeps the names distinct. */
  lemma UpdateKeepsNamesDistinct(groups: seq<TagGroup>, id: string, name: string, charts: seq<ChartConfig>,
                                 config: Option<ProcessingConfig.DataProcessingConfig>, now: Clock, saved: Result<()>)
    requires DistinctNames(groups) && DistinctIds(groups)
    ensures DistinctNames(UpdateStep(groups, id, name, charts, config, now, saved).0)
    ensures DistinctIds(UpdateStep(groups, id, name, charts, config, now, saved).0)
  {
    UpdateFacts(groups, id, name, charts, config, now, saved);
    var gs := UpdateStep(groups, id, name, charts, config, now, saved).0;
    if gs != groups {
      var k := Position(groups, id).value;
      forall i | 0 <= i < |gs| && i != k ensures gs[i].name != gs[k].name && gs[i].id != gs[k].id {
        assert gs[i] == groups[i];
        assert gs[k].name == Trim(name) && gs[k].id == id;
        assert groups[i].id != id;
      }
    }
  }

  /**
   * Deleting: an unknown id is NotFound and changes nothing; otherwise the
   * first group with the id is removed, the others keep their order, and
   * the list holds one group fewer.
   */
  lemma DeleteFacts(groups: seq<TagGroup>, id: string, saved: Result<()>)
    ensures var (gs, r) := DeleteStep(groups, id, saved);
      && (Position(groups, id).None? ==> gs == groups && r == Err(NotFound(MissingIdMsg(id))))
      && (Position(groups, id).Some? ==>
            var k := Position(groups, id).value;
            && |gs| == |groups| - 1
            && (forall i :: 0 <= i < k ==> gs[i] == groups[i])
            && (forall i :: k <= i < |gs| ==> gs[i] == groups[i + 1])
            && multiset(gs) + multiset{groups[k]} == multiset(groups)
            && (r.Ok? <==> saved.Ok?))
  {
    if Position(groups, id).Some? {
      RemovedAt(groups, Position(groups, id).value);
    }
  }

  /** Removing the element at `k` shifts the later ones down by one and drops one copy of it. */
  lemma RemovedAt<T>(s: seq<T>, k: nat)
    requires k < |s|
    ensures var r := s[..k] + s[k + 1..];
      && |r| == |s| - 1
      && (forall i :: 0 <= i < k ==> r[i] == s[i])
      && (forall i :: k <= i < |r| ==> r[i] == s[i + 1])
      && multiset(r) + multiset{s[k]} == multiset(s)
  {
    assert s == s[..k] + [s[k]] + s[k + 1..];
  }

  /** Deleting a group keeps names and ids distinct. */
  lemma DeleteKeepsDistinct(groups: seq<TagGroup>, id: string, saved: Result<()>)
    requires DistinctNames(groups) && DistinctIds(groups)
    ensures DistinctNames(DeleteStep(groups, id, saved).0) && DistinctIds(DeleteStep(groups, id, saved).0)
  {
    DeleteFacts(groups, id, saved);
    var gs := DeleteStep(groups, id, saved).0;
    if Position(groups, id).Some? {
      var k := Position(groups, id).value;
      forall i, j | 0 <= i < j < |gs| ensures gs[i].name != gs[j].name && gs[i].id != gs[j].id {
        var i' := if i < k then i else i + 1;
        var j' := if j < k then j else j + 1;
        assert gs[i] == groups[i'] && gs[j] == groups[j'];
      }
    }
  }

  // ---------------------------------------------------------------------
  // The manager
  // ---------------------------------------------------------------------

  /** `TagGroupConfigManager`: the groups of the loaded configuration. */
  class TagGroupConfigManager {
    /** `config.version`. */
    var version: nat
    /** `config.groups`, in stored order. */
    var groups: seq<TagGroup>

    /** A manager over `TagGroupConfig::new()`: version 1 and no groups. */
    constructor ()
      ensures version == 1 && groups == []
    {
      version := NewConfig().version;
      groups := NewConfig().groups;
    }

    /** `list_groups`: the groups in stored order. */
    function ListGroups(): seq<TagGroup>
      reads this
    {
      groups
    }

    /** `get_group`: the first group with the id, or None when no group has it. */
    function GetGroup(id: string): (r: Option<TagGroup>)
      reads this
      ensures r.None? <==> forall i :: 0 <= i < |groups| ==> groups[i].id != id
      ensures r.Some? ==> r.value.id == id && exists k :: (0 <= k < |groups| && groups[k] == r.value
                                                            && forall j :: 0 <= j < k ==> groups[j].id != id)
    {
      match Position(groups, id)
      case None => None
      case Some(k) => Some(groups[k])
    }

    /** The index of the first group with the id, found by scanning the list. */
    method FindGroup(id: string) returns (r: Option<nat>)
      ensures r == Position(groups, id)
    {
      var i := 0;
      while i < |groups|
        invariant 0 <= i <= |groups|
        invariant forall j :: 0 <= j < i ==> groups[j].id != id
      {
        if groups[i].id == id {
          return Some(i);
        }
        i := i + 1;
      }
      return None;
    }

    /** `create_group`; `saved` is what saving the file returned. */
    method CreateGroup(name: string, charts: seq<ChartConfig>, now: Clock, saved: Result<()>) returns (r: Result<TagGroup>)
      modifies this
      ensures (groups, r) == CreateStep(old(groups), name, charts, now, saved)
      ensures version == old(version)
    {
      if NameTaken(groups, Trim(name)) {
        return Err(Validation(DuplicateNameMsg(name)));
      }
      var group := NewGroup(name, charts, now);
      if group.Fail? {
        return Err(Validation(group.reason));
      }
      groups := groups + [group.value];
      r := AfterSave(saved, group.value);
    }

    /** `update_group`; `saved` is what saving the file returned. */
    method UpdateGroup(id: string, name: string, charts: seq<ChartConfig>,
                       config: Option<ProcessingConfig.DataProcessingConfig>, now: Clock, saved: Result<()>)
      returns (r: Result<TagGroup>)
      modifies this
      ensures (groups, r) == UpdateStep(old(groups), id, name, charts, config, now, saved)
      ensures version == old(version)
    {
      if NameTakenByOther(groups, id, Trim(name)) {
        return Err(Validation(DuplicateNameMsg(name)));
      }
      var k := FindGroup(id);
      if k.None? {
        return Err(NotFound(MissingIdMsg(id)));
      }
      var updated := Update(groups[k.value], name, charts, config, now);
      if updated.Fail? {
        return Err(Validation(updated.reason));
      }
      groups := groups[k.value := updated.value];
      r := AfterSave(saved, updated.value);
    }

    /** `delete_group`; `saved` is what saving the file returned. */
    method DeleteGroup(id: string, saved: Result<()>) returns (r: Result<()>)
      modifies this
      ensures (groups, r) == DeleteStep(old(groups), id, saved)
      ensures version == old(version)
    {
      var k := FindGroup(id);
      if k.None? {
        return Err(NotFound(MissingIdMsg(id)));
      }
      groups := groups[..k.value] + groups[k.value + 1..];
      r := AfterSave(saved, ());
    }
  }
}
