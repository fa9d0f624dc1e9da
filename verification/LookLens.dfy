/** A custom look as settings inside settings, read and changed along paths, and the editor's Reset. */
module LookLens {
  import opened Basics

  /** A JSON value; a leaf remembers whether it counts as false. */
  datatype Value = Null | Leaf(text: string, falsy: bool) | Dict(entries: Look)

  type Look = map<string, Value>
  type Path = seq<string>

  /** What is set at `path`, and Null where nothing is. */
  function SettingOf(value: Value, path: Path): Value
    decreases |path|
  {
    if path == [] then value
    else
      match value
      case Dict(entries) => SettingOf(if path[0] in entries then entries[path[0]] else Null, path[1..])
      case _ => SettingOf(Null, path[1..])
  }

  function Setting(look: Look, path: Path): Value {
    SettingOf(Dict(look), path)
  }

  /** What a look holds under `head`, as settings: something that counts as false is no settings at all, and
      anything else that is not settings cannot be changed inside. */
  function Inner(look: Look, head: string): Option<Look> {
    if head !in look then Some(map[])
    else
      match look[head]
      case Null => Some(map[])
      case Leaf(_, falsy) => if falsy then Some(map[]) else None
      case Dict(entries) => Some(entries)
  }

  /** `look` with `path` set to `value`, or unset for Null. Settings left empty go. */
  function WithSetting(look: Look, path: Path, value: Value): Option<Look>
    requires path != []
    decreases |path|
  {
    var head, rest := path[0], path[1..];
    if rest == [] then Some(AtHead(look, head, value))
    else
      match Inner(look, head)
      case None => None
      case Some(entries) =>
        match WithSetting(entries, rest, value)
        case None => None
        case Some(inner) => Some(AtHead(look, head, if inner == map[] then Null else Dict(inner)))
  }

  /** Nothing but settings is in the way of `path`. */
  predicate Open(look: Look, path: Path)
    requires path != []
    decreases |path|
  {
    |path| == 1 || (Inner(look, path[0]).Some? && Open(Inner(look, path[0]).value, path[1..]))
  }

  /** A value that counts as true and is no settings. */
  predicate InTheWay(value: Value) {
    value.Leaf? && !value.falsy
  }

  /** That is, there is no such value on the way. */
  lemma {:induction false} OpenMeansNothingInTheWay(look: Look, path: Path)
    requires path != []
    ensures Open(look, path) <==> forall k :: 0 < k < |path| ==> !InTheWay(Setting(look, path[..k]))
    decreases |path|
  {
    if |path| > 1 {
      OneStepIn(look, path);
      if Inner(look, path[0]).Some? {
        var entries := Inner(look, path[0]).value;
        OpenMeansNothingInTheWay(entries, path[1..]);
        forall k | 1 < k < |path|
          ensures InTheWay(Setting(look, path[..k])) <==> InTheWay(Setting(entries, path[1..][..k - 1]))
        {
          assert path[..k][1..] == path[1..][..k - 1];
          SettingInside(look, path[..k]);
        }
        if Open(look, path) {
          forall k | 0 < k < |path| ensures !InTheWay(Setting(look, path[..k])) {
            assert k > 1 ==> !InTheWay(Setting(entries, path[1..][..k - 1]));
          }
        } else {
          var k :| 0 < k < |path| - 1 && InTheWay(Setting(entries, path[1..][..k]));
          assert InTheWay(Setting(look, path[..k + 1]));
        }
      } else {
        assert InTheWay(Setting(look, path[..1]));
      }
    }
  }

  lemma OneStepIn(look: Look, path: Path)
    requires path != []
    ensures Setting(look, path[..1]) == if path[0] in look then look[path[0]] else Null
    ensures Inner(look, path[0]).None? <==> InTheWay(Setting(look, path[..1]))
  {
    assert path[..1][0] == path[0] && path[..1][1..] == [];
    var entry := if path[0] in look then look[path[0]] else Null;
    assert SettingOf(Dict(look), path[..1]) == SettingOf(entry, []);
  }

  lemma {:induction false} ChangesWhereOpen(look: Look, path: Path, value: Value)
    requires path != []
    ensures WithSetting(look, path, value).Some? <==> Open(look, path)
    decreases |path|
  {
    if |path| > 1 && Inner(look, path[0]).Some? {
      ChangesWhereOpen(Inner(look, path[0]).value, path[1..], value);
    }
  }

  lemma {:induction false} NothingInNull(path: Path)
    ensures SettingOf(Null, path) == Null
  {
    if path != [] {
      NothingInNull(path[1..]);
    }
  }

  lemma NothingInNone(path: Path)
    requires path != []
    ensures Setting(map[], path) == Null
  {
    NothingInNull(path[1..]);
  }

  /** Reading one step in is reading in what the look holds there. */
  lemma SettingInside(look: Look, path: Path)
    requires |path| > 1 && Inner(look, path[0]).Some?
    ensures Setting(look, path) == Setting(Inner(look, path[0]).value, path[1..])
  {
    NothingInNone(path[1..]);
    NothingInNull(path[1..]);
    if path[0] in look && look[path[0]].Leaf? {
      assert SettingOf(look[path[0]], path[1..]) == SettingOf(Null, path[1..][1..]);
      NothingInNull(path[1..][1..]);
    }
  }

  /** What was set is read back. */
  lemma {:induction false} PutGet(look: Look, path: Path, value: Value)
    requires path != [] && Open(look, path)
    ensures WithSetting(look, path, value).Some? && Setting(WithSetting(look, path, value).value, path) == value
    decreases |path|
  {
    ChangesWhereOpen(look, path, value);
    var after := WithSetting(look, path, value).value;
    if |path| == 1 {
      assert path[1..] == [];
      assert SettingOf(Dict(after), path) == SettingOf(if path[0] in after then after[path[0]] else Null, []);
    } else {
      var entries := Inner(look, path[0]).value;
      PutGet(entries, path[1..], value);
      var inner := WithSetting(entries, path[1..], value).value;
      assert Inner(after, path[0]) == Some(inner);
      SettingInside(after, path);
    }
  }

  /** Only the last of two settings of one path counts. */
  lemma {:induction false} PutPut(look: Look, path: Path, first: Value, second: Value)
    requires path != [] && Open(look, path)
    ensures WithSetting(look, path, first).Some?
    ensures WithSetting(WithSetting(look, path, first).value, path, second) == WithSetting(look, path, second)
    decreases |path|
  {
    ChangesWhereOpen(look, path, first);
    var after, head := WithSetting(look, path, first).value, path[0];
    if |path| == 1 {
      HeadTwice(look, head, first, second);
    } else {
      var entries := Inner(look, head).value;
      PutPut(entries, path[1..], first, second);
      var inner := WithSetting(entries, path[1..], first).value;
      assert Inner(after, head) == Some(inner);
      ChangesWhereOpen(entries, path[1..], second);
      var last := WithSetting(entries, path[1..], second).value;
      HeadTwice(look, head, if inner == map[] then Null else Dict(inner), if last == map[] then Null else Dict(last));
    }
  }

  function AtHead(look: Look, head: string, value: Value): Look {
    if value == Null then look - {head} else look[head := value]
  }

  lemma HeadTwice(look: Look, head: string, first: Value, second: Value)
    ensures AtHead(AtHead(look, head, first), head, second) == AtHead(look, head, second)
  {
  }

  predicate Apart(p: Path, q: Path) {
    !(p <= q) && !(q <= p)
  }

  /** Setting one path changes nothing at a path apart from it, nor whether that can be changed. */
  lemma {:induction false} NoInterference(look: Look, path: Path, value: Value, other: Path)
    requires path != [] && other != [] && Apart(path, other) && Open(look, path) && Open(look, other)
    ensures WithSetting(look, path, value).Some?
    ensures var after := WithSetting(look, path, value).value;
            Setting(after, other) == Setting(look, other) && Open(after, other)
    decreases |path|
  {
    ChangesWhereOpen(look, path, value);
    var after := WithSetting(look, path, value).value;
    if path[0] == other[0] {
      assert |path| > 1 && |other| > 1 by {
        assert path == [path[0]] + path[1..] && other == [other[0]] + other[1..];
      }
      var entries := Inner(look, path[0]).value;
      ApartInside(path, other);
      NoInterference(entries, path[1..], value, other[1..]);
      var inner := WithSetting(entries, path[1..], value).value;
      assert Inner(after, path[0]) == Some(inner);
      SettingInside(after, other);
      SettingInside(look, other);
    } else {
      assert other[0] in after <==> other[0] in look;
      assert Inner(after, other[0]) == Inner(look, other[0]);
    }
  }

  lemma ApartInside(p: Path, q: Path)
    requires p != [] && q != [] && p[0] == q[0] && Apart(p, q)
    ensures Apart(p[1..], q[1..])
  {
    PrefixInside(p, q);
    PrefixInside(q, p);
  }

  lemma PrefixInside(p: Path, q: Path)
    requires p != [] && q != []
    ensures p <= q <==> p[0] == q[0] && p[1..] <= q[1..]
  {
    assert p == [p[0]] + p[1..] && q == [q[0]] + q[1..];
  }

  predicate NothingUnset(entries: Look) {
    forall key <- entries :: entries[key] != Null
  }

  /** Nowhere in the look are settings left empty, or kept though they are unset. */
  ghost predicate Tidy(look: Look) {
    && NothingUnset(look)
    && forall path: Path | path != [] :: TidyValue(Setting(look, path))
  }

  predicate TidyValue(value: Value) {
    value.Dict? ==> value.entries != map[] && NothingUnset(value.entries)
  }

  lemma TidyInside(look: Look, head: string)
    requires Tidy(look) && Inner(look, head).Some?
    ensures Tidy(Inner(look, head).value)
  {
    var entries := Inner(look, head).value;
    forall path: Path | path != [] ensures TidyValue(Setting(entries, path)) {
      assert ([head] + path)[1..] == path;
      SettingInside(look, [head] + path);
    }
    if head in look && look[head].Dict? {
      assert [head][1..] == [];
      assert Setting(look, [head]) == SettingOf(look[head], []);
      assert TidyValue(Setting(look, [head]));
    }
  }

  lemma TidyWithHead(look: Look, head: string, value: Value)
    requires Tidy(look) && (value.Dict? ==> value.entries != map[] && Tidy(value.entries))
    ensures Tidy(AtHead(look, head, value))
  {
    var after := AtHead(look, head, value);
    forall path: Path | path != [] ensures TidyValue(Setting(after, path)) {
      if path[0] == head {
        assert Setting(after, path) == SettingOf(value, path[1..]);
        if path[1..] != [] {
          if value.Dict? {
            assert SettingOf(value, path[1..]) == Setting(value.entries, path[1..]);
          } else {
            NothingInNull(path[1..][1..]);
          }
        }
      } else {
        assert Setting(after, path) == Setting(look, path);
      }
    }
  }

  /** A change leaves no empty settings behind: those it empties go, all the way up. */
  lemma {:induction false} StaysTidy(look: Look, path: Path, value: Value)
    requires path != [] && Tidy(look) && Open(look, path)
    requires value.Dict? ==> value.entries != map[] && Tidy(value.entries)
    ensures WithSetting(look, path, value).Some? && Tidy(WithSetting(look, path, value).value)
    decreases |path|
  {
    hide Tidy;
    ChangesWhereOpen(look, path, value);
    if |path| == 1 {
      TidyWithHead(look, path[0], value);
    } else {
      var entries := Inner(look, path[0]).value;
      TidyInside(look, path[0]);
      StaysTidy(entries, path[1..], value);
      var inner := WithSetting(entries, path[1..], value).value;
      TidyWithHead(look, path[0], if inner == map[] then Null else Dict(inner));
    }
  }

  // ----- Resetting -----

  /** Setting by setting, back to what `start` has. */
  function Reset(look: Look, start: Look, fields: seq<Path>): Option<Look>
    requires forall i :: 0 <= i < |fields| ==> fields[i] != []
  {
    if fields == [] then Some(look)
    else
      match Reset(look, start, fields[..|fields| - 1])
      case None => None
      case Some(before) => WithSetting(before, fields[|fields| - 1], Setting(start, fields[|fields| - 1]))
  }

  /** No field is part of another's path. */
  predicate PrefixFree(fields: seq<Path>) {
    && (forall i :: 0 <= i < |fields| ==> fields[i] != [])
    && (forall i, j :: 0 <= i < |fields| && 0 <= j < |fields| ==> fields[i] == fields[j] || Apart(fields[i], fields[j]))
  }

  /** Nothing but settings is in the way of any of the fields, as in every look the editor opens. */
  predicate Editable(look: Look, fields: seq<Path>) {
    forall i :: 0 <= i < |fields| && fields[i] != [] ==> Open(look, fields[i])
  }

  /** Resetting some fields puts exactly those back, whatever order they come in and however often. */
  lemma {:induction false} ResetRestoresExactly(look: Look, start: Look, all: seq<Path>, some: seq<Path>)
    requires PrefixFree(all) && Editable(look, all) && forall i :: 0 <= i < |some| ==> some[i] in all
    ensures forall i :: 0 <= i < |some| ==> some[i] != []
    ensures Reset(look, start, some).Some?
    ensures var after := Reset(look, start, some).value;
            && Editable(after, all)
            && forall i :: 0 <= i < |all| ==>
                 Setting(after, all[i]) == Setting(if all[i] in some then start else look, all[i])
  {
    if some != [] {
      var front, last := some[..|some| - 1], some[|some| - 1];
      assert some == front + [last];
      ResetRestoresExactly(look, start, all, front);
      var before := Reset(look, start, front).value;
      var value := Setting(start, last);
      PutGet(before, last, value);
      var after := WithSetting(before, last, value).value;
      assert Reset(look, start, some) == Some(after);
      OpenStays(before, last, value);
      forall i | 0 <= i < |all|
        ensures Open(after, all[i])
        ensures Setting(after, all[i]) == Setting(if all[i] in some then start else look, all[i])
      {
        if all[i] != last {
          assert Apart(last, all[i]);
          NoInterference(before, last, value, all[i]);
        }
      }
    }
  }

  lemma {:induction false} OpenStays(look: Look, path: Path, value: Value)
    requires path != [] && Open(look, path)
    ensures WithSetting(look, path, value).Some? && Open(WithSetting(look, path, value).value, path)
    decreases |path|
  {
    ChangesWhereOpen(look, path, value);
    if |path| > 1 {
      var entries := Inner(look, path[0]).value;
      OpenStays(entries, path[1..], value);
      assert Inner(WithSetting(look, path, value).value, path[0]) == Some(WithSetting(entries, path[1..], value).value);
    }
  }

  datatype Draft = Draft(look: Look, start: Look, savedAs: Option<string>)

  predicate Changed(draft: Draft, fields: seq<Path>) {
    exists path <- fields :: Setting(draft.look, path) != Setting(draft.start, path)
  }

  datatype Group = Group(key: string, fields: seq<Path>)

  function Under(head: string, keys: seq<string>): seq<Path> {
    seq(|keys|, i requires 0 <= i < |keys| => [head, keys[i]])
  }

  const COLOURS := ["page", "card", "text", "line", "muted"]
  const CATEGORIES := ["class", "assignments", "study", "exercise", "extra", "meals", "sleep", "free"]

  const GROUPS: seq<Group> :=
    [Group("colours", [["accent"]] + Under("colours", COLOURS)),
     Group("categories", Under("categories", CATEGORIES)),
     Group("shape", [["corners"], ["spacing"], ["shadows"]]),
     Group("type", [["body_font"], ["heading_font"], ["text_scale"]]),
     Group("blocks", [["blocks"], ["edge_width"], ["show_times"], ["show_lengths"]]),
     Group("grid", [["hour_lines"], ["now_line"], ["today_highlight"]]),
     Group("motion", [["motion"]])]

  function FieldsOf(groups: seq<Group>): seq<Path> {
    if groups == [] then [] else FieldsOf(groups[..|groups| - 1]) + groups[|groups| - 1].fields
  }

  // ----- The editor's own fields -----

  /** One name alone, or a name inside the colours or the categories. */
  predicate Shaped(path: Path) {
    if |path| == 1 then path[0] != "colours" && path[0] != "categories"
    else |path| == 2 && (path[0] == "colours" || path[0] == "categories")
  }

  lemma ShapedAreApart(p: Path, q: Path)
    requires Shaped(p) && Shaped(q)
    ensures p == q || Apart(p, q)
  {
    PrefixInside(p, q);
    PrefixInside(q, p);
  }

  lemma {:induction false} FieldsComeFromGroups(groups: seq<Group>)
    requires forall i, k :: 0 <= i < |groups| && 0 <= k < |groups[i].fields| ==> Shaped(groups[i].fields[k])
    ensures forall k :: 0 <= k < |FieldsOf(groups)| ==> Shaped(FieldsOf(groups)[k])
  {
    if groups != [] {
      FieldsComeFromGroups(groups[..|groups| - 1]);
    }
  }

  lemma SinglesAreShaped()
    ensures Shaped(["accent"]) && Shaped(["corners"]) && Shaped(["spacing"]) && Shaped(["shadows"])
    ensures Shaped(["body_font"]) && Shaped(["heading_font"]) && Shaped(["text_scale"])
    ensures Shaped(["blocks"]) && Shaped(["edge_width"]) && Shaped(["show_times"]) && Shaped(["show_lengths"])
    ensures Shaped(["hour_lines"]) && Shaped(["now_line"]) && Shaped(["today_highlight"]) && Shaped(["motion"])
  {
    assert "colours"[2] == 'l' && "corners"[2] == 'r' && "spacing"[0] == 's' && "shadows"[0] == 's';
    assert "categories"[0] == 'c' && "text_scale"[0] == 't' && "edge_width"[0] == 'e' && "show_times"[0] == 's';
    assert "hour_lines"[0] == 'h' && "body_font"[0] == 'b';
  }

  lemma NestedAreShaped(keys: seq<string>)
    ensures forall k :: 0 <= k < |keys| ==> Shaped(Under("colours", keys)[k]) && Shaped(Under("categories", keys)[k])
  {
  }

  /** The editor's settings: none is part of another's path. */
  lemma FieldsArePrefixFree()
    ensures PrefixFree(FieldsOf(GROUPS))
  {
    SinglesAreShaped();
    NestedAreShaped(COLOURS);
    NestedAreShaped(CATEGORIES);
    hide Shaped;
    forall i, k | 0 <= i < |GROUPS| && 0 <= k < |GROUPS[i].fields| ensures Shaped(GROUPS[i].fields[k]) {
    }
    FieldsComeFromGroups(GROUPS);
    var fields := FieldsOf(GROUPS);
    forall i, j | 0 <= i < |fields| && 0 <= j < |fields|
      ensures fields[i] != [] && (fields[i] == fields[j] || Apart(fields[i], fields[j]))
    {
      ShapedAreApart(fields[i], fields[j]);
      ShapedIsSomething(fields[i]);
    }
  }

  lemma ShapedIsSomething(path: Path)
    requires Shaped(path)
    ensures path != []
  {
  }

  lemma {:induction false} GroupFieldsAreFields(groups: seq<Group>, g: nat, path: Path)
    requires g < |groups| && path in groups[g].fields
    ensures path in FieldsOf(groups)
  {
    if g < |groups| - 1 {
      GroupFieldsAreFields(groups[..|groups| - 1], g, path);
    }
  }

  lemma {:induction false} FieldsAreGroupFields(groups: seq<Group>, path: Path) returns (g: nat)
    requires path in FieldsOf(groups)
    ensures g < |groups| && path in groups[g].fields
  {
    if path in groups[|groups| - 1].fields {
      g := |groups| - 1;
    } else {
      g := FieldsAreGroupFields(groups[..|groups| - 1], path);
    }
  }

  /** Groups reset one after another, in any order: the settings of those groups are back as they started and
      all others as they were. */
  lemma ResettingGroups(look: Look, start: Look, chosen: seq<nat>, path: Path)
    requires Editable(look, FieldsOf(GROUPS))
    requires forall i :: 0 <= i < |chosen| ==> chosen[i] < |GROUPS|
    requires path in FieldsOf(GROUPS)
    ensures forall i :: 0 <= i < |FieldsOfChosen(chosen)| ==> FieldsOfChosen(chosen)[i] != []
    ensures var after := Reset(look, start, FieldsOfChosen(chosen));
            && after.Some?
            && Setting(after.value, path)
                 == Setting(if exists c <- chosen :: path in GROUPS[c].fields then start else look, path)
  {
    FieldsArePrefixFree();
    hide Setting, Reset;
    var all, some := FieldsOf(GROUPS), FieldsOfChosen(chosen);
    forall i | 0 <= i < |some| ensures some[i] in all {
      var g := FieldsAreGroupFields(Chosen(chosen), some[i]);
      GroupFieldsAreFields(GROUPS, chosen[g], some[i]);
    }
    ResetRestoresExactly(look, start, all, some);
    if path in some {
      var g := FieldsAreGroupFields(Chosen(chosen), path);
      assert chosen[g] in chosen;
    }
    if c :| c in chosen && path in GROUPS[c].fields {
      var g :| 0 <= g < |chosen| && chosen[g] == c;
      GroupFieldsAreFields(Chosen(chosen), g, path);
    }
  }

  function Chosen(chosen: seq<nat>): (groups: seq<Group>)
    requires forall i :: 0 <= i < |chosen| ==> chosen[i] < |GROUPS|
    ensures |groups| == |chosen|
  {
    seq(|chosen|, i requires 0 <= i < |chosen| => GROUPS[chosen[i]])
  }

  function FieldsOfChosen(chosen: seq<nat>): seq<Path>
    requires forall i :: 0 <= i < |chosen| ==> chosen[i] < |GROUPS|
  {
    FieldsOf(Chosen(chosen))
  }

  /** Resetting every group, in whatever order, leaves nothing changed. */
  lemma ResettingAllLeavesNothingChanged(draft: Draft, chosen: seq<nat>)
    requires Editable(draft.look, FieldsOf(GROUPS))
    requires forall i :: 0 <= i < |chosen| ==> chosen[i] < |GROUPS|
    requires forall g: nat :: g < |GROUPS| ==> g in chosen
    ensures forall i :: 0 <= i < |FieldsOfChosen(chosen)| ==> FieldsOfChosen(chosen)[i] != []
    ensures var after := Reset(draft.look, draft.start, FieldsOfChosen(chosen));
            after.Some? && !Changed(draft.(look := after.value), FieldsOf(GROUPS))
  {
    hide Setting, Reset;
    SomeField();
    ResettingGroups(draft.look, draft.start, chosen, ["motion"]);
    forall path <- FieldsOf(GROUPS)
      ensures Reset(draft.look, draft.start, FieldsOfChosen(chosen)).Some?
      ensures Setting(Reset(draft.look, draft.start, FieldsOfChosen(chosen)).value, path) == Setting(draft.start, path)
    {
      ResettingGroups(draft.look, draft.start, chosen, path);
      var g := FieldsAreGroupFields(GROUPS, path);
      assert g in chosen;
    }
  }

  lemma SomeField()
    ensures ["motion"] in FieldsOf(GROUPS)
  {
    GroupFieldsAreFields(GROUPS, 6, ["motion"]);
  }

  // ----- The editor -----

  class LookEditor {
    var look: Look
    const start: Look

    constructor (worn: Look)
      ensures look == worn && start == worn
    {
      look, start := worn, worn;
    }

    method ResetGroup(group: Group) returns (done: bool)
      requires forall i :: 0 <= i < |group.fields| ==> group.fields[i] != []
      modifies this`look
      ensures done == Reset(old(look), start, group.fields).Some?
      ensures done ==> Some(look) == Reset(old(look), start, group.fields)
      ensures !done ==> look == old(look)
    {
      var made := look;
      var i := 0;
      while i < |group.fields|
        invariant 0 <= i <= |group.fields|
        invariant Reset(look, start, group.fields[..i]) == Some(made)
      {
        var path := group.fields[i];
        assert group.fields[..i + 1][..i] == group.fields[..i];
        var next := WithSetting(made, path, Setting(start, path));
        if next.None? {
          ResetStops(look, start, group.fields, i + 1);
          return false;
        }
        made := next.value;
        i := i + 1;
      }
      assert group.fields[..i] == group.fields;
      look := made;
      return true;
    }
  }

  lemma {:induction false} ResetStops(look: Look, start: Look, fields: seq<Path>, at: nat)
    requires forall i :: 0 <= i < |fields| ==> fields[i] != []
    requires at <= |fields| && Reset(look, start, fields[..at]).None?
    ensures Reset(look, start, fields).None?
  {
    if at == |fields| {
      assert fields[..at] == fields;
    } else {
      assert fields[..|fields| - 1][..at] == fields[..at];
      ResetStops(look, start, fields[..|fields| - 1], at);
    }
  }
}
