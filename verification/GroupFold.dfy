/** Reading the tag groups back: one pass over the ordered join of groups and members. */
module GroupFold {
  import opened Options
  import opened Catalog

  // A row of the join; a group without members has one row without a tag
  datatype JoinRow = JoinRow(group: Id, category: Id, name: string, tag: Option<Id>)

  datatype GroupDto = GroupDto(id: Id, name: string, members: seq<Id>)

  // ---- The pass ----

  function Extended(list: seq<GroupDto>, r: JoinRow): (longer: seq<GroupDto>)
    ensures longer != []
  {
    // a new group starts when the id changes
    var begun := if list == [] || list[|list| - 1].id != r.group then list + [GroupDto(r.group, r.name, [])] else list;
    var last := begun[|begun| - 1];
    if r.tag.Some? then begun[|begun| - 1 := last.(members := last.members + [r.tag.value])] else begun
  }

  function ListOf(groups: map<Id, seq<GroupDto>>, c: Id): seq<GroupDto> {
    if c in groups then groups[c] else []
  }

  function Fold(rows: seq<JoinRow>): map<Id, seq<GroupDto>>
    decreases |rows|
  {
    if rows == [] then map[]
    else
      var before := Fold(rows[..|rows| - 1]);
      var r := rows[|rows| - 1];
      before[r.category := Extended(ListOf(before, r.category), r)]
  }

  lemma FoldOneMore(rows: seq<JoinRow>, i: nat)
    requires i < |rows|
    ensures var before := Fold(rows[..i]);
            Fold(rows[..i + 1]) == before[rows[i].category := Extended(ListOf(before, rows[i].category), rows[i])]
  {
    assert rows[..i + 1][..i] == rows[..i];
  }

  method CollectGroups(rows: seq<JoinRow>) returns (groups: map<Id, seq<GroupDto>>)
    ensures groups == Fold(rows)
  {
    groups := map[];
    for i := 0 to |rows|
      invariant groups == Fold(rows[..i])
    {
      FoldOneMore(rows, i);
      hide Fold;
      var r := rows[i];
      var list := ListOf(groups, r.category);
      if |list| == 0 || list[|list| - 1].id != r.group {
        list := list + [GroupDto(r.group, r.name, [])];
      }
      if r.tag.Some? {
        var last := list[|list| - 1];
        list := list[|list| - 1 := last.(members := last.members + [r.tag.value])];
      }
      groups := groups[r.category := list];
    }
    assert rows[..|rows|] == rows;
  }

  // ---- What the rows say ----

  predicate RowBefore(a: JoinRow, b: JoinRow) {
    || a.category < b.category
    || (a.category == b.category && a.group < b.group)
    || (a.category == b.category && a.group == b.group && (a.tag.None? ==> b.tag.Some?)
        && (a.tag.Some? ==> b.tag.Some? && a.tag.value < b.tag.value))
  }

  predicate Ordered(rows: seq<JoinRow>) {
    forall i, j | 0 <= i < j < |rows| :: RowBefore(rows[i], rows[j])
  }

  predicate HasGroup(rows: seq<JoinRow>, c: Id, g: Id) {
    exists r | r in rows :: r.category == c && r.group == g
  }

  predicate HasName(rows: seq<JoinRow>, c: Id, g: Id, name: string) {
    exists r | r in rows :: r.category == c && r.group == g && r.name == name
  }

  predicate HasMember(rows: seq<JoinRow>, c: Id, g: Id, t: Id) {
    exists r | r in rows :: r.category == c && r.group == g && r.tag == Some(t)
  }

  predicate Increasing(ids: seq<Id>) {
    forall i, j | 0 <= i < j < |ids| :: ids[i] < ids[j]
  }

  predicate ById(list: seq<GroupDto>) {
    forall i, j | 0 <= i < j < |list| :: list[i].id < list[j].id
  }

  // The group is one of the rows', with its members complete and in order
  ghost predicate DtoOk(rows: seq<JoinRow>, c: Id, dto: GroupDto) {
    && HasName(rows, c, dto.id, dto.name)
    && Increasing(dto.members)
    && forall t :: t in dto.members <==> HasMember(rows, c, dto.id, t)
  }

  ghost predicate ListOk(rows: seq<JoinRow>, c: Id, list: seq<GroupDto>) {
    && ById(list)
    && (forall dto | dto in list :: DtoOk(rows, c, dto))
    && forall g | HasGroup(rows, c, g) :: exists dto | dto in list :: dto.id == g
  }

  ghost predicate Folded(rows: seq<JoinRow>, groups: map<Id, seq<GroupDto>>) {
    forall c :: ListOk(rows, c, ListOf(groups, c)) && (c in groups ==> groups[c] != [])
  }

  lemma OneMoreRow(before: seq<JoinRow>, r: JoinRow, c: Id, g: Id)
    ensures HasGroup(before + [r], c, g) <==> HasGroup(before, c, g) || (r.category == c && r.group == g)
    ensures forall n :: HasName(before + [r], c, g, n)
                        <==> HasName(before, c, g, n) || (r.category == c && r.group == g && r.name == n)
    ensures forall t: Id :: HasMember(before + [r], c, g, t)
                            <==> HasMember(before, c, g, t) || (r.category == c && r.group == g && r.tag == Some(t))
  {
    var rows := before + [r];
    assert r in rows && forall s :: s in rows <==> s in before || s == r;
  }

  lemma NamedIsThere(rows: seq<JoinRow>, c: Id, g: Id, name: string)
    requires HasName(rows, c, g, name)
    ensures HasGroup(rows, c, g)
  {
  }

  lemma MemberIsThere(rows: seq<JoinRow>, c: Id, g: Id, t: Id)
    requires HasMember(rows, c, g, t)
    ensures HasGroup(rows, c, g)
  {
  }

  // The rows before a row have smaller groups, or the same group and smaller tags
  lemma RowsBefore(before: seq<JoinRow>, r: JoinRow, g: Id)
    requires Ordered(before + [r])
    ensures HasGroup(before, r.category, g) ==> g <= r.group
    ensures forall t: Id | HasMember(before, r.category, r.group, t) :: r.tag.Some? && t < r.tag.value
  {
    forall s | s in before
      ensures RowBefore(s, r)
    {
      var i :| 0 <= i < |before| && before[i] == s;
      assert (before + [r])[i] == s && (before + [r])[|before|] == r;
    }
  }

  lemma OtherDto(before: seq<JoinRow>, r: JoinRow, c: Id, dto: GroupDto)
    requires DtoOk(before, c, dto) && !(r.category == c && r.group == dto.id)
    ensures DtoOk(before + [r], c, dto)
  {
    OneMoreRow(before, r, c, dto.id);
    hide HasName, HasMember, Increasing;
  }

  lemma IncreasingOneMore(ids: seq<Id>, t: Id)
    requires Increasing(ids) && forall i | i in ids :: i < t
    ensures Increasing(ids + [t])
  {
    forall i | 0 <= i < |ids|
      ensures ids[i] < t
    {
      assert ids[i] in ids;
    }
  }

  // The group of the last row, begun or continued
  lemma LastDto(before: seq<JoinRow>, r: JoinRow, dto: GroupDto)
    requires Ordered(before + [r]) && dto.id == r.group
    requires DtoOk(before, r.category, dto)
             || (dto == GroupDto(r.group, r.name, []) && !HasGroup(before, r.category, r.group))
    ensures DtoOk(before + [r], r.category, if r.tag.Some? then dto.(members := dto.members + [r.tag.value]) else dto)
  {
    OneMoreRow(before, r, r.category, r.group);
    RowsBefore(before, r, r.group);
    var longer := if r.tag.Some? then dto.(members := dto.members + [r.tag.value]) else dto;
    forall t
      ensures HasMember(before, r.category, r.group, t) ==> HasGroup(before, r.category, r.group)
    {
      if HasMember(before, r.category, r.group, t) {
        MemberIsThere(before, r.category, r.group, t);
      }
    }
    assert forall t | t in dto.members :: r.tag.Some? && t < r.tag.value;
    hide HasName, HasMember, HasGroup, Ordered;
    if r.tag.Some? {
      IncreasingOneMore(dto.members, r.tag.value);
    }
    forall t
      ensures t in longer.members <==> HasMember(before + [r], r.category, r.group, t)
    {
    }
  }

  lemma ExtendedIds(list: seq<GroupDto>, r: JoinRow)
    ensures var longer := Extended(list, r);
            && |longer| == (if list != [] && list[|list| - 1].id == r.group then |list| else |list| + 1)
            && longer[|longer| - 1].id == r.group
            && (forall k | 0 <= k < |longer| - 1 :: longer[k] == list[k])
            && longer[|longer| - 1] == (var dto := if list != [] && list[|list| - 1].id == r.group
                then list[|list| - 1] else GroupDto(r.group, r.name, []);
                                        if r.tag.Some? then dto.(members := dto.members + [r.tag.value]) else dto)
  {
  }

  // All groups listed for the category of a row but the last are smaller than the row's
  lemma ListedBefore(before: seq<JoinRow>, r: JoinRow, list: seq<GroupDto>, k: nat)
    requires Ordered(before + [r]) && ListOk(before, r.category, list) && k < |list|
    ensures list[k].id <= r.group && (k < |list| - 1 ==> list[k].id < r.group)
  {
    assert DtoOk(before, r.category, list[k]) && DtoOk(before, r.category, list[|list| - 1]);
    NamedIsThere(before, r.category, list[k].id, list[k].name);
    NamedIsThere(before, r.category, list[|list| - 1].id, list[|list| - 1].name);
    RowsBefore(before, r, list[k].id);
    RowsBefore(before, r, list[|list| - 1].id);
  }

  lemma ExtendedDtos(before: seq<JoinRow>, r: JoinRow, list: seq<GroupDto>)
    requires Ordered(before + [r]) && ListOk(before, r.category, list)
    ensures forall dto | dto in Extended(list, r) :: DtoOk(before + [r], r.category, dto)
  {
    var longer := Extended(list, r);
    var n := |longer| - 1;
    ExtendedIds(list, r);
    forall k | 0 <= k < |longer|
      ensures DtoOk(before + [r], r.category, longer[k])
    {
      if k < n {
        ListedBefore(before, r, list, k);
        assert longer[k] in list;
        if k == |list| - 1 {
          assert list[k].id != r.group;
        }
        OtherDto(before, r, r.category, list[k]);
      } else if list != [] && list[|list| - 1].id == r.group {
        assert list[|list| - 1] in list;
        LastDto(before, r, list[|list| - 1]);
      } else {
        if HasGroup(before, r.category, r.group) {
          var dto :| dto in list && dto.id == r.group;
          var j :| 0 <= j < |list| && list[j] == dto;
          ListedBefore(before, r, list, j);
          assert false;
        }
        LastDto(before, r, GroupDto(r.group, r.name, []));
      }
    }
    hide Extended, DtoOk, ListOk, Ordered;
    forall dto | dto in longer
      ensures DtoOk(before + [r], r.category, dto)
    {
      var k :| 0 <= k < |longer| && longer[k] == dto;
    }
  }

  lemma ExtendedById(before: seq<JoinRow>, r: JoinRow, list: seq<GroupDto>)
    requires Ordered(before + [r]) && ListOk(before, r.category, list)
    ensures ById(Extended(list, r))
  {
    ExtendedIds(list, r);
    assert ById(list);
    forall k | 0 <= k < |list|
      ensures list[k].id <= r.group && (k < |list| - 1 ==> list[k].id < r.group)
    {
      ListedBefore(before, r, list, k);
    }
    hide Extended, ListOk, Ordered;
  }

  lemma ExtendedIsComplete(before: seq<JoinRow>, r: JoinRow, list: seq<GroupDto>, g: Id)
    requires ListOk(before, r.category, list) && HasGroup(before + [r], r.category, g)
    ensures exists dto | dto in Extended(list, r) :: dto.id == g
  {
    var longer := Extended(list, r);
    ExtendedIds(list, r);
    OneMoreRow(before, r, r.category, g);
    hide Extended, DtoOk, HasGroup, ById;
    if g == r.group {
      assert longer[|longer| - 1] in longer;
    } else {
      var dto :| dto in list && dto.id == g;
      var k :| 0 <= k < |list| && list[k] == dto;
      assert longer[k] == dto;
    }
  }

  lemma ExtendedIsOk(before: seq<JoinRow>, r: JoinRow, list: seq<GroupDto>)
    requires Ordered(before + [r]) && ListOk(before, r.category, list)
    ensures ListOk(before + [r], r.category, Extended(list, r))
  {
    ExtendedById(before, r, list);
    ExtendedDtos(before, r, list);
    forall g | HasGroup(before + [r], r.category, g)
      ensures exists dto | dto in Extended(list, r) :: dto.id == g
    {
      ExtendedIsComplete(before, r, list, g);
    }
    hide Extended, DtoOk, Ordered, HasGroup, ById;
  }

  lemma OtherListIsOk(before: seq<JoinRow>, r: JoinRow, c: Id, list: seq<GroupDto>)
    requires ListOk(before, c, list) && c != r.category
    ensures ListOk(before + [r], c, list)
  {
    forall dto | dto in list
      ensures DtoOk(before + [r], c, dto)
    {
      OtherDto(before, r, c, dto);
    }
    forall g
      ensures HasGroup(before + [r], c, g) <==> HasGroup(before, c, g)
    {
      OneMoreRow(before, r, c, g);
    }
    hide DtoOk, HasGroup, ById;
  }

  lemma {:induction false} FoldIsFolded(rows: seq<JoinRow>)
    requires Ordered(rows)
    ensures Folded(rows, Fold(rows))
    decreases |rows|
  {
    if rows != [] {
      var n := |rows| - 1;
      var before, r := rows[..n], rows[n];
      assert rows == before + [r];
      FoldIsFolded(before);
      var groups := Fold(before);
      hide Extended, ListOk, Ordered;
      forall c
        ensures ListOk(rows, c, ListOf(Fold(rows), c))
      {
        if c == r.category {
          ExtendedIsOk(before, r, ListOf(groups, c));
        } else {
          OtherListIsOk(before, r, c, ListOf(groups, c));
        }
      }
    }
  }

  // ---- The join ----

  // The ordered left join of a user's groups with their members
  ghost predicate IsJoin(groups: map<Id, Key>, members: set<Membership>, rows: seq<JoinRow>) {
    && Ordered(rows)
    && (forall r | r in rows :: r.group in groups && r.category == groups[r.group].category
                                && r.name == groups[r.group].name
                                && (r.tag.Some? ==> Membership(r.group, r.tag.value) in members))
    && (forall g | g in groups :: HasGroup(rows, groups[g].category, g))
    && (forall m | m in members && m.group in groups :: HasMember(rows, groups[m.group].category, m.group, m.tag))
  }

  // Every group comes out once, under its category and in id order, emptied ones included,
  // with exactly its members in id order; and nothing else does
  lemma FoldInvertsJoin(groups: map<Id, Key>, members: set<Membership>, rows: seq<JoinRow>, c: Id)
    requires IsJoin(groups, members, rows)
    ensures var list := ListOf(Fold(rows), c);
            && ById(list)
            && (forall g | g in groups && groups[g].category == c :: exists dto | dto in list :: dto.id == g)
            && (forall dto | dto in list ::
                  && dto.id in groups && groups[dto.id].category == c && dto.name == groups[dto.id].name
                  && Increasing(dto.members)
                  && forall t :: t in dto.members <==> Membership(dto.id, t) in members)
  {
    FoldIsFolded(rows);
    var list := ListOf(Fold(rows), c);
    assert ListOk(rows, c, list);
    hide Fold, Ordered, Increasing, ById;
    forall dto | dto in list
      ensures dto.id in groups && groups[dto.id].category == c && dto.name == groups[dto.id].name
      ensures forall t :: t in dto.members <==> Membership(dto.id, t) in members
    {
      assert DtoOk(rows, c, dto);
      var s :| s in rows && s.category == c && s.group == dto.id && s.name == dto.name;
      forall t
        ensures t in dto.members <==> Membership(dto.id, t) in members
      {
        if t in dto.members {
          var r :| r in rows && r.category == c && r.group == dto.id && r.tag == Some(t);
        }
        if Membership(dto.id, t) in members {
          assert HasMember(rows, groups[dto.id].category, dto.id, t);
        }
      }
    }
  }
}
