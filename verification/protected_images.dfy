/** The set of image file names the cleanup must keep, loaded once from
    its store and written back only when it grows. */
module ProtectedImages {
  import opened Common

  /** What reading the store gave: no file, a read or parse error, or the
      listed names. */
  datatype StoreRead = NoStoreFile | StoreError(message: string) | StoredNames(names: seq<string>)

  /** `normalizeImageName()`: nothing for an empty or blank input,
      otherwise the last `/` piece of the trimmed input. */
  function NormalizeImageName(input: string): (r: Option<string>)
    ensures r.None? <==> Trim(input) == []
    ensures r.Some? ==> '/' !in r.value && EndsWith(Trim(input), r.value)
    ensures r.Some? && '/' !in Trim(input) ==> r.value == Trim(input)
    ensures r.Some? && '/' in Trim(input) ==>
      var t := Trim(input); |r.value| < |t| && t[|t| - |r.value| - 1] == '/'
  {
    if input == [] then None
    else
      var trimmed := Trim(input);
      if |trimmed| == 0 then None
      else
        LastSegmentIsSuffix(trimmed, '/');
        Some(LastSegment(trimmed, '/'))
  }

  /** A bare file name: non-empty, no surrounding blanks, no `/`. */
  predicate PlainName(name: string) {
    name != [] && !IsJsSpace(name[0]) && !IsJsSpace(name[|name| - 1]) && '/' !in name
  }

  /** The last `/` piece of `/img/` followed by a bare name is that name. */
  lemma ImgPathLastSegment(name: string)
    requires '/' !in name
    ensures LastSegment("/img/" + name, '/') == name
  {
    SplitNoSeparator(name, '/');
    var rest := "img" + ['/'] + name;
    SplitAppend("img", name, '/');
    assert Split(rest, '/') == ["img", name];
    assert "/img/" + name == [] + ['/'] + rest;
    SplitAppend([], rest, '/');
  }

  /** A bare file name is its own normalised name, and so is the path
      `/img/` followed by it. */
  lemma NormalizePlainName(name: string)
    requires PlainName(name)
    ensures NormalizeImageName(name) == Some(name)
    ensures NormalizeImageName("/img/" + name) == Some(name)
  {
    SplitNoSeparator(name, '/');
    var path := "/img/" + name;
    assert Trim(path) == path by {
      assert path[0] == '/' && path[|path| - 1] == name[|name| - 1];
    }
    ImgPathLastSegment(name);
  }

  /** The name a path adds to the set, if any: empty names are skipped. */
  predicate AddsName(path: string) {
    NormalizeImageName(path).Some? && NormalizeImageName(path).value != []
  }

  /** The names a list of paths adds to the set. */
  function NamesOf(paths: seq<string>): (r: set<string>)
    ensures forall name :: name in r ==> name != [] && '/' !in name
  {
    if paths == [] then {}
    else
      var last := paths[|paths| - 1];
      NamesOf(paths[..|paths| - 1]) + (if AddsName(last) then {NormalizeImageName(last).value} else {})
  }

  /** Every path that normalises to a non-empty name adds it. */
  lemma {:induction false} NamesOfComplete(paths: seq<string>)
    ensures forall i :: 0 <= i < |paths| && AddsName(paths[i]) ==> NormalizeImageName(paths[i]).value in NamesOf(paths)
  {
    if paths != [] {
      var init := paths[..|paths| - 1];
      NamesOfComplete(init);
      assert forall i :: 0 <= i < |init| ==> init[i] == paths[i];
    }
  }

  /** Every added name comes from one of the paths. */
  lemma {:induction false} NamesOfSound(paths: seq<string>)
    ensures forall name :: name in NamesOf(paths) ==>
      exists i :: 0 <= i < |paths| && AddsName(paths[i]) && NormalizeImageName(paths[i]).value == name
  {
    if paths != [] {
      var init := paths[..|paths| - 1];
      var last := |paths| - 1;
      NamesOfSound(init);
      forall name | name in NamesOf(paths)
        ensures exists i :: 0 <= i < |paths| && AddsName(paths[i]) && NormalizeImageName(paths[i]).value == name
      {
        if name in NamesOf(init) {
          var i :| 0 <= i < |init| && AddsName(init[i]) && NormalizeImageName(init[i]).value == name;
          assert init[i] == paths[i];
        } else {
          assert AddsName(paths[last]) && NormalizeImageName(paths[last]).value == name;
        }
      }
    }
  }

  /** One more path adds at most its own name. */
  lemma NamesOfStep(paths: seq<string>, i: nat)
    requires i < |paths|
    ensures NamesOf(paths[..i + 1]) ==
      NamesOf(paths[..i]) + (if AddsName(paths[i]) then {NormalizeImageName(paths[i]).value} else {})
  {
    assert paths[..i + 1][..i] == paths[..i];
  }

  /** The names a successful read of the store gives. */
  function Loaded(store: StoreRead): (r: set<string>)
    ensures store.StoredNames? ==> forall i :: 0 <= i < |store.names| ==> store.names[i] in r
    ensures store.StoredNames? ==> forall name :: name in r ==> name in store.names
    ensures !store.StoredNames? ==> r == {}
  {
    if store.StoredNames? then set i | 0 <= i < |store.names| :: store.names[i] else {}
  }

  /** The module state: whether the store has been loaded, the protected
      names, and every snapshot written back to the store. */
  class ProtectedStore {
    var initialized: bool
    var protectedSet: set<string>
    var writes: seq<set<string>>

    constructor()
      ensures !initialized && protectedSet == {} && writes == []
    {
      initialized := false;
      protectedSet := {};
      writes := [];
    }

    /** `initProtectedImagesStore()`: does nothing once loaded; a missing
        store gives the empty set; any other read or parse error is
        raised and leaves the store unloaded. */
    method Init(store: StoreRead) returns (error: Option<string>)
      modifies this`initialized, this`protectedSet
      ensures old(initialized) ==> error.None? && initialized && protectedSet == old(protectedSet)
      ensures !old(initialized) && !store.StoreError? ==> error.None? && initialized && protectedSet == Loaded(store)
      ensures !old(initialized) && store.StoreError? ==>
        error == Some(store.message) && !initialized && protectedSet == old(protectedSet)
    {
      if initialized {
        return None;
      }
      if store.StoreError? {
        return Some(store.message);
      }
      if store.StoredNames? {
        protectedSet := set i | 0 <= i < |store.names| :: store.names[i];
      } else {
        protectedSet := {};
      }
      initialized := true;
      return None;
    }

    /** The loop of `markImagesProtected()`: adds each non-empty normalised
        name that is not yet in the set, noting whether any was added. */
    method AddNames(paths: seq<string>) returns (changed: bool)
      modifies this`protectedSet
      ensures protectedSet == old(protectedSet) + NamesOf(paths)
      ensures changed <==> !(NamesOf(paths) <= old(protectedSet))
    {
      changed := false;
      var i := 0;
      while i < |paths|
        invariant 0 <= i <= |paths|
        invariant protectedSet == old(protectedSet) + NamesOf(paths[..i])
        invariant changed <==> !(NamesOf(paths[..i]) <= old(protectedSet))
      {
        NamesOfStep(paths, i);
        var name := NormalizeImageName(paths[i]);
        if name.Some? && name.value != [] && name.value !in protectedSet {
          protectedSet := protectedSet + {name.value};
          changed := true;
        }
        i := i + 1;
      }
      assert paths[..i] == paths;
    }

    /** `markImagesProtected()`: loads the store if needed, adds every
        non-empty normalised name, and writes the set back only when it
        grew. */
    method MarkImagesProtected(paths: seq<string>, store: StoreRead) returns (error: Option<string>)
      modifies this
      ensures !old(initialized) && store.StoreError? ==>
        error == Some(store.message) && protectedSet == old(protectedSet) && writes == old(writes) &&
        !initialized
      ensures old(initialized) || !store.StoreError? ==>
        var loaded := if old(initialized) then old(protectedSet) else Loaded(store);
        && error.None? && initialized
        && protectedSet == loaded + NamesOf(paths)
        && writes == old(writes) + (if NamesOf(paths) <= loaded then [] else [protectedSet])
      ensures error.None? ==> NamesOf(paths) <= protectedSet
      ensures error.None? ==> forall i :: 0 <= i < |paths| && AddsName(paths[i]) ==>
        IsImageProtected(NormalizeImageName(paths[i]).value)
    {
      if !initialized {
        error := Init(store);
        if error.Some? {
          return;
        }
      }
      var changed := AddNames(paths);
      NamesOfComplete(paths);
      if changed {
        writes := writes + [protectedSet];
      }
      error := None;
    }

    /** `isImageProtected()`: membership in the set. */
    predicate IsImageProtected(fileName: string)
      reads this
    {
      fileName in protectedSet
    }
  }
}
