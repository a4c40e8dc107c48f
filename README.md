# gofred result builder, modelled in Dafny

gofred helps an Alfred script filter build its answer. A `Response` holds two things:
a map of workflow variables and an ordered list of result items. Items are added either
unconditionally (`AddItem`) or only when the user's command matches the item's title
(`MatchCommand` and its two wrappers `AddMatchedListItem` and `AddMatchedExecutableItem`).

The model has two files:

- `strings.dfy`, module `Strings`. It models the one standard-library call the builder makes,
  Go's `strings.Contains`. `Contains` is a recursive function. Its contract says it holds
  exactly when the command occurs as a contiguous, case-sensitive substring of the title
  (`OccursAt`).
- `gofred.dfy`, module `Gofred`.
  - The value records `IconInfo` and `Item` are datatypes.
  - `Response` is a class with the fields `varMap: map<string, string>` and `items: seq<Item>`.
    Its methods reassign these fields, as the Go methods update them. The item list is a
    sequence value and the variable map a map value, so what Go shares by reference is not
    shared here (see "Left out").
  - Each method's postcondition gives the whole new state in terms of the old state.
  - Lemmas beside the class cover the match gate, the synthesised item identifier, the
    JSON keys an item is written with, and a series of `AddVariable` calls (`Assigned`).

Modelling decisions:

- Go strings are byte strings. Here a string is a `seq<char>`, read as one `char` per byte,
  and this is used everywhere. Substring matching works on these units, with no case
  folding or normalisation.
- Line 70 of `gofred.go` passes `iconPath` for both the icon type and the icon path, and
  `MatchCommand`'s `iconType` argument is never used. The model keeps this behaviour. The
  postconditions of `MatchCommand` and both wrappers say so: the added item's icon is
  `IconInfo(iconPath, iconPath)`, and `iconType` appears nowhere in the new state.
  `WrapperItemKeys` shows one visible effect: a wrapper item's icon gets a JSON `type` key
  exactly when the icon path is non-empty.
- The match gate `len(cmd) == 0 || strings.Contains(title, cmd)` is written as the predicate
  `Matches`. `MatchesIsContains` proves that the empty-command test is redundant.
- `SetVariables` is a client method that makes a series of `AddVariable` calls. Its
  postcondition shows the resulting map is `Assigned` of the calls, so the `Assigned`
  lemmas describe `Response` itself.
- `ExampleSession` is a client method. It shows what a caller can derive from the
  contracts alone: a matching command adds one item with the synthesised uid, a
  non-matching command adds none, and setting a key again overwrites its value.

## Model

| member | source | states |
|---|---|---|
| `Strings.Contains` | gofred.go:69 | `strings.Contains(title, cmd)` holds exactly when `cmd` occurs at some index of `title` as a contiguous substring |
| `Gofred.MatchesIsContains` | gofred.go:69 | the gate `Matches(cmd, title)`, that is "`cmd` is empty or `Contains(title, cmd)`", is equivalent to `Contains(title, cmd)` alone, and so to "cmd occurs somewhere in title" |
| `Gofred.Uid` | gofred.go:76 | the synthesised uid is the title, then the character `.`, then the subtitle, one longer than title and subtitle together |
| `Gofred.UidInjective` | gofred.go:81 | when neither title contains a dot, equal synthesised uids imply equal titles and equal subtitles |
| `Gofred.UidCollision` | gofred.go:76 | with a dot in the title, two different title/subtitle pairs (`"a.b"`,`"c"` and `"a"`,`"b.c"`) get the same uid |
| `Gofred.WrapperItemKeys` | gofred.go:10-24 | by `ItemKeys` (the tags of lines 17-24) and `IconKeys` (the tag of line 11), an item built by either wrapper is written with all eight item keys, `uid` and `type` included; its icon has a `type` key exactly when the icon path is non-empty |
| `Gofred.SetVariables` | gofred.go:46-48 | a series of `AddVariable` calls on a response leaves its variable map equal to `Assigned` of the calls, starting from the old map, and leaves its items unchanged |
| `Gofred.AssignedStep` | gofred.go:46-48 | one more `AddVariable(key, value)` after a series of calls gives the map of that series updated at `key` |
| `Gofred.AssignedKeys` | gofred.go:46-48 | after a series of `AddVariable` calls, the keys are the initial keys plus exactly the keys that were set |
| `Gofred.VariableCount` | gofred.go:39-48 | starting from `NewResponse`, the number of variables equals the number of distinct keys set |
| `Gofred.AssignedLatest` | gofred.go:46-48 | a key that was set holds the value of the last call that set it, so a repeated key is overwritten |
| `Gofred.AssignedUntouched` | gofred.go:46-48 | a key that no call sets keeps its initial presence and value |
| `Gofred.Response.NewResponse` | gofred.go:39-43 | a new response has an empty variable map and no items |
| `Gofred.Response.AddVariable` | gofred.go:46-48 | the variable map becomes `old(varMap)[key := value]`, so other keys are unchanged; the items are unchanged |
| `Gofred.Response.AddItem` | gofred.go:51-65 | exactly one item is appended at the end, carrying exactly the given fields; earlier items stay unchanged and in order; the variables are unchanged |
| `Gofred.Response.MatchCommand` | gofred.go:68-72 | the item list grows by one iff the command is empty or occurs in the title, and is otherwise unchanged; the appended item has `iconPath` as both icon type and icon path, whatever `iconType` is; the variables are unchanged |
| `Gofred.Response.AddMatchedListItem` | gofred.go:75-77 | appends an item iff the title matches; that item has uid `title + "." + subtitle`, type `"default"`, an empty arg and `valid == false`; otherwise nothing changes; the variables are unchanged |
| `Gofred.Response.AddMatchedExecutableItem` | gofred.go:80-82 | appends an item iff the title matches; that item has uid `title + "." + subtitle`, type `"default"`, the caller's arg and `valid == true`; otherwise nothing changes; the variables are unchanged |

## Left out

- `Response.String()` (gofred.go:84-90) is not modelled. It calls Go's `encoding/json.Marshal`, whose escaping, key order and `omitempty` rules are library code outside this model. Only the set of keys an item or icon is written with (`ItemKeys`, `IconKeys`) is modelled, taken from the struct tags on lines 11-24.
- Whether the `alfredworkflow` wrapper is omitted for an empty variable map is not modelled. `omitempty` on a struct-typed field is a JSON library rule, and lines 28-36 do not settle it.
- The error message printed by `fmt.Printf` when marshalling fails (gofred.go:87) is I/O and is not modelled.
- Gofred.Response.AddVariable: does not model two behaviours of Go's map. First, a `Response` built without `NewResponse` (its zero value, `&Response{}`) has a nil `VarMap`, and line 47 then panics on assignment; the model's only constructor is `NewResponse`, so this panic cannot occur. (`AddItem` on such a value works in Go, since it appends to a nil slice.) Second, `VarMap` is a Go reference: after `r2 := *r1` or `m := r1.VarMap`, a later `AddVariable` on one is visible through the other. Here `varMap` is a map value, so that sharing is lost.
- Go's distinction between a nil and an empty `Items` slice is not modelled. `items` is a plain sequence, and a new response starts with the empty one.
- Pointer aliasing of `*Response` between callers is not modelled beyond Dafny's own object references. The Go type provides no locking, and neither does the model.
