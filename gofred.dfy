/**
 The result builder of an Alfred script filter: a `Response` collects workflow
 variables and an ordered list of result items, adding an item either
 unconditionally or only when its title matches the user's query.
 */
module Gofred {
  import opened Strings

  /** How the launcher finds an item's icon: an optional interpretation tag and a path. */
  datatype IconInfo = IconInfo(iconType: string, path: string)

  /** One result row, with every field supplied by the caller. */
  datatype Item = Item(
    title: string,
    subtitle: string,
    icon: IconInfo,
    arg: string,
    autocomplete: string,
    uid: string,
    itemType: string,
    valid: bool
  )

  /** The match gate of `MatchCommand`: an empty command matches every title,
      any other command must occur in the title (case-sensitively). */
  predicate Matches(cmd: string, title: string) {
    |cmd| == 0 || Contains(title, cmd)
  }

  /** The empty-command test of the gate is redundant: the gate is exactly the
      substring test, since the empty string occurs in every title. */
  lemma MatchesIsContains(cmd: string, title: string)
    ensures Matches(cmd, title) <==> Contains(title, cmd)
    ensures Matches(cmd, title) <==> exists i :: OccursAt(title, cmd, i)
  {
  }

  /** The identifier the two convenience wrappers synthesise: the title, a dot,
      then the subtitle. */
  function Uid(title: string, subtitle: string): (r: string)
    ensures |r| == |title| + 1 + |subtitle|
    ensures r[..|title|] == title && r[|title|] == '.' && r[|title| + 1..] == subtitle
  {
    title + "." + subtitle
  }

  /** Titles without a dot give distinct identifiers to distinct title/subtitle pairs. */
  lemma UidInjective(title1: string, subtitle1: string, title2: string, subtitle2: string)
    requires '.' !in title1 && '.' !in title2
    requires Uid(title1, subtitle1) == Uid(title2, subtitle2)
    ensures title1 == title2 && subtitle1 == subtitle2
  {
  }

  /** A dot in the title lets two different entries share one identifier. */
  lemma UidCollision()
    ensures Uid("a.b", "c") == Uid("a", "b.c")
  {
  }

  /** The JSON keys an icon is written with: `type` is omitted when empty. */
  function IconKeys(icon: IconInfo): (keys: set<string>) {
    {"path"} + if icon.iconType == "" then {} else {"type"}
  }

  /** The JSON keys an item is written with: `uid` and `type` are omitted when empty,
      every other field is always written. */
  function ItemKeys(item: Item): (keys: set<string>) {
    {"title", "subtitle", "icon", "arg", "autocomplete", "valid"}
    + (if item.uid == "" then {} else {"uid"})
    + (if item.itemType == "" then {} else {"type"})
  }

  /** An item added through either convenience wrapper is written with all eight
      keys, and its icon carries a `type` key exactly when the icon path is non-empty
      (because the icon path is routed into the icon type slot). */
  lemma WrapperItemKeys(title: string, subtitle: string, iconPath: string, arg: string,
                        autoComplete: string, valid: bool)
    ensures var item := Item(title, subtitle, IconInfo(iconPath, iconPath), arg, autoComplete,
                             Uid(title, subtitle), "default", valid);
            && ItemKeys(item) == {"title", "subtitle", "icon", "arg", "autocomplete", "uid", "type", "valid"}
            && ("type" in IconKeys(item.icon) <==> iconPath != "")
  {
  }

  /** The variable map after a series of `AddVariable(key, value)` calls, in order,
      on a map that started as `m`. */
  function Assigned(m: map<string, string>, calls: seq<(string, string)>): (vars: map<string, string>)
    decreases |calls|
  {
    if calls == [] then m
    else
      var last := calls[|calls| - 1];
      Assigned(m, calls[..|calls| - 1])[last.0 := last.1]
  }

  /** The keys named by a series of `AddVariable` calls. */
  function KeysOf(calls: seq<(string, string)>): (keys: set<string>) {
    set i | 0 <= i < |calls| :: calls[i].0
  }

  /** One more `AddVariable(key, value)` call updates the map at `key` and nowhere else. */
  lemma AssignedStep(m: map<string, string>, calls: seq<(string, string)>, key: string, value: string)
    ensures Assigned(m, calls + [(key, value)]) == Assigned(m, calls)[key := value]
  {
  }

  /** The variable map holds the initial keys and exactly the keys ever set. */
  lemma {:induction false} AssignedKeys(m: map<string, string>, calls: seq<(string, string)>)
    ensures Assigned(m, calls).Keys == m.Keys + KeysOf(calls)
    decreases |calls|
  {
    if calls != [] {
      var init := calls[..|calls| - 1];
      AssignedKeys(m, init);
      assert KeysOf(calls) == KeysOf(init) + {calls[|calls| - 1].0} by {
        forall k | k in KeysOf(calls) ensures k in KeysOf(init) + {calls[|calls| - 1].0} {
          var i :| 0 <= i < |calls| && calls[i].0 == k;
          if i < |calls| - 1 {
            assert init[i] == calls[i];
          }
        }
        forall k | k in KeysOf(init) ensures k in KeysOf(calls) {
          var i :| 0 <= i < |init| && init[i].0 == k;
          assert calls[i] == init[i];
        }
      }
    }
  }

  /** Starting from an empty map, the number of variables is the number of distinct
      keys set, so overwriting a key never adds an entry. */
  lemma VariableCount(calls: seq<(string, string)>)
    ensures |Assigned(map[], calls)| == |KeysOf(calls)|
  {
    AssignedKeys(map[], calls);
    assert Assigned(map[], calls).Keys == KeysOf(calls);
  }

  /** A key holds the value of the last call that set it. */
  lemma {:induction false} AssignedLatest(m: map<string, string>, calls: seq<(string, string)>, i: nat)
    requires i < |calls|
    requires forall j :: i < j < |calls| ==> calls[j].0 != calls[i].0
    ensures calls[i].0 in Assigned(m, calls) && Assigned(m, calls)[calls[i].0] == calls[i].1
    decreases |calls|
  {
    if i < |calls| - 1 {
      var init := calls[..|calls| - 1];
      assert init[i] == calls[i];
      forall j | i < j < |init| ensures init[j].0 != init[i].0 {
        assert init[j] == calls[j];
      }
      AssignedLatest(m, init, i);
    }
  }

  /** A key no call names keeps its initial presence and value. */
  lemma {:induction false} AssignedUntouched(m: map<string, string>, calls: seq<(string, string)>, key: string)
    requires key !in KeysOf(calls)
    ensures key in Assigned(m, calls) <==> key in m
    ensures key in m ==> Assigned(m, calls)[key] == m[key]
    decreases |calls|
  {
    if calls != [] {
      var init := calls[..|calls| - 1];
      assert calls[|calls| - 1].0 != key;
      AssignedUntouched(m, init, key);
    }
  }

  /** The result set handed back to the launcher: workflow variables and result items. */
  class Response {
    var varMap: map<string, string>
    var items: seq<Item>

    /** A response with no variables and no items. */
    constructor NewResponse()
      ensures varMap == map[] && items == []
    {
      varMap := map[];
      items := [];
    }

    /** Sets workflow variable `key` to `value`, overwriting any earlier value. */
    method AddVariable(key: string, value: string)
      modifies this
      ensures varMap == old(varMap)[key := value]
      ensures items == old(items)
    {
      varMap := varMap[key := value];
    }

    /** Appends an item built from exactly the given fields. */
    method AddItem(title: string, subtitle: string, iconType: string, iconPath: string, arg: string,
                   autocomplete: string, uid: string, itemType: string, valid: bool)
      modifies this
      ensures items == old(items)
        + [Item(title, subtitle, IconInfo(iconType, iconPath), arg, autocomplete, uid, itemType, valid)]
      ensures varMap == old(varMap)
    {
      items := items
        + [Item(title, subtitle, IconInfo(iconType, iconPath), arg, autocomplete, uid, itemType, valid)];
    }

    /** Appends an item when the title matches `cmd`, and otherwise changes nothing.
        The icon path fills both icon slots; `iconType` is ignored. */
    method MatchCommand(cmd: string, title: string, subtitle: string, iconType: string, iconPath: string,
                        arg: string, autocomplete: string, uid: string, itemType: string, valid: bool)
      modifies this
      ensures varMap == old(varMap)
      ensures |items| == |old(items)| + 1 <==> Matches(cmd, title)
      ensures items == if Matches(cmd, title)
        then old(items) + [Item(title, subtitle, IconInfo(iconPath, iconPath), arg, autocomplete, uid, itemType, valid)]
        else old(items)
    {
      if Matches(cmd, title) {
        AddItem(title, subtitle, iconPath, iconPath, arg, autocomplete, uid, itemType, valid);
      }
    }

    /** Appends a browsable, not invocable item when the title matches `cmd`. */
    method AddMatchedListItem(cmd: string, title: string, subtitle: string, iconPath: string, autoComplete: string)
      modifies this
      ensures varMap == old(varMap)
      ensures |items| == |old(items)| + 1 <==> Matches(cmd, title)
      ensures items == if Matches(cmd, title)
        then old(items) + [Item(title, subtitle, IconInfo(iconPath, iconPath), "", autoComplete,
                                Uid(title, subtitle), "default", false)]
        else old(items)
    {
      MatchCommand(cmd, title, subtitle, "", iconPath, "", autoComplete, Uid(title, subtitle), "default", false);
    }

    /** Appends an invocable item carrying `arg` when the title matches `cmd`. */
    method AddMatchedExecutableItem(cmd: string, title: string, subtitle: string, iconPath: string,
                                    autoComplete: string, arg: string)
      modifies this
      ensures varMap == old(varMap)
      ensures |items| == |old(items)| + 1 <==> Matches(cmd, title)
      ensures items == if Matches(cmd, title)
        then old(items) + [Item(title, subtitle, IconInfo(iconPath, iconPath), arg, autoComplete,
                                Uid(title, subtitle), "default", true)]
        else old(items)
    {
      MatchCommand(cmd, title, subtitle, "", iconPath, arg, autoComplete, Uid(title, subtitle), "default", true);
    }
  }

  /** A caller that sets a series of variables, one `AddVariable` call each, in order:
      the variable map ends as `Assigned` describes, so the lemmas about `Assigned`
      are lemmas about `Response`. */
  method SetVariables(r: Response, calls: seq<(string, string)>)
    modifies r
    ensures r.varMap == Assigned(old(r.varMap), calls)
    ensures r.items == old(r.items)
  {
    var i := 0;
    while i < |calls|
      invariant 0 <= i <= |calls|
      invariant r.varMap == Assigned(old(r.varMap), calls[..i])
      invariant r.items == old(r.items)
    {
      r.AddVariable(calls[i].0, calls[i].1);
      AssignedStep(old(r.varMap), calls[..i], calls[i].0, calls[i].1);
      assert calls[..i + 1] == calls[..i] + [(calls[i].0, calls[i].1)];
      i := i + 1;
    }
    assert calls[..i] == calls;
  }

  /** A client: what a caller can conclude from the contracts alone. */
  method ExampleSession() {
    var r := new Response.NewResponse();
    r.AddVariable("env", "prod");
    assert Contains("abcdef", "ab");
    r.AddMatchedExecutableItem("ab", "abcdef", "sub1", "icon.png", "auto1", "arg1");
    assert r.items == [Item("abcdef", "sub1", IconInfo("icon.png", "icon.png"), "arg1", "auto1",
                            Uid("abcdef", "sub1"), "default", true)];
    assert Uid("abcdef", "sub1") == "abcdef.sub1";
    assert !Contains("abcdef", "xyz") by {
      assert "abcdef"[1..] == "bcdef" && "bcdef"[1..] == "cdef" && "cdef"[1..] == "def";
      assert !Contains("ef", "xyz");
      assert "def" != "xyz" by { assert "def"[0] != "xyz"[0]; }
      assert !Contains("def", "xyz");
    }
    r.AddMatchedExecutableItem("xyz", "abcdef", "sub1", "icon.png", "auto1", "arg1");
    assert |r.items| == 1;
    r.AddVariable("env", "dev");
    assert r.varMap == map["env" := "dev"];
  }
}
