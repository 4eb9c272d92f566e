/**
 The media store (pkg/media/store.go): files registered under references, grouped by scope, released
 scope by scope or by age. Three maps are kept in step; the files themselves are deleted afterwards.
 */
module MediaStore {

  datatype Entry = Entry(path: string, storedAt: int)

  /** The three maps and the files on disk. */
  datatype State = State(
    refs: map<string, Entry>, scopeToRefs: map<string, set<string>>, refToScope: map<string, string>,
    files: set<string>)

  const EMPTY := State(map[], map[], map[], {})

  /** The maps agree: same references, a reference is in its scope's set alone, and no set is empty. */
  ghost predicate Consistent(s: State) {
    && s.refs.Keys == s.refToScope.Keys
    && (forall ref :: ref in s.refToScope ==> s.refToScope[ref] in s.scopeToRefs)
    && (forall scope, ref :: scope in s.scopeToRefs ==>
          (ref in s.scopeToRefs[scope] <==> ref in s.refToScope && s.refToScope[ref] == scope))
    && (forall scope :: scope in s.scopeToRefs ==> s.scopeToRefs[scope] != {})
  }

  /** The maps without some references, and the paths of those. */
  datatype Removal = Removal(state: State, paths: set<string>)

  ghost function Removals(s: State, gone: set<string>): iset<Removal> {
    iset r: Removal | r.state == Without(s, gone) && r.paths == Paths(s.refs, gone)
  }

  ghost function ConsistentStates(): iset<State> { iset s: State | Consistent(s) }

  function RefsOf(s: State, scope: string): set<string> { if scope in s.scopeToRefs then s.scopeToRefs[scope] else {} }

  function Stored(s: State, ref: string, entry: Entry, scope: string): State {
    State(s.refs[ref := entry], s.scopeToRefs[scope := RefsOf(s, scope) + {ref}], s.refToScope[ref := scope], s.files)
  }

  /** Without the references in gone, and without the scopes that this empties. */
  function Without(s: State, gone: set<string>): State {
    State(s.refs - gone, ScopesWithout(s.scopeToRefs, gone), s.refToScope - gone, s.files)
  }

  function ScopesWithout(scopes: map<string, set<string>>, gone: set<string>): map<string, set<string>> {
    map scope | scope in scopes && scopes[scope] - gone != {} :: scopes[scope] - gone
  }

  function Paths(refs: map<string, Entry>, gone: set<string>): set<string> {
    set ref | ref in gone && ref in refs :: refs[ref].path
  }

  function Released(s: State, gone: set<string>): State {
    Without(s, gone).(files := s.files - Paths(s.refs, gone))
  }

  function Expired(s: State, cutoff: int): set<string> { set ref | ref in s.refs && s.refs[ref].storedAt < cutoff }

  function Cleaned(s: State, cutoff: int): State { Released(s, Expired(s, cutoff)) }

  // ------------------------------------------------------------------ what every operation keeps

  lemma {:induction false} StoreKeeps(s: State, ref: string, entry: Entry, scope: string)
    requires Consistent(s) && ref !in s.refs
    ensures Consistent(Stored(s, ref, entry, scope))
  {
    var s' := Stored(s, ref, entry, scope);
    assert ref in s'.scopeToRefs[scope];
    forall other, r | other in s'.scopeToRefs
      ensures r in s'.scopeToRefs[other] <==> r in s'.refToScope && s'.refToScope[r] == other
    {
      assert ref !in RefsOf(s, other);
    }
  }

  lemma {:induction false} WithoutKeeps(s: State, gone: set<string>)
    requires Consistent(s)
    ensures Consistent(Without(s, gone))
  {
    var s' := Without(s, gone);
    assert s'.refs.Keys == s'.refToScope.Keys;
    forall ref | ref in s'.refToScope ensures s'.refToScope[ref] in s'.scopeToRefs {
      assert ref in s.scopeToRefs[s.refToScope[ref]] - gone;
    }
  }

  /** Releasing a scope removes exactly its references and the scope itself. */
  lemma {:induction false} ReleaseExact(s: State, scope: string, ref: string)
    requires Consistent(s)
    ensures var s' := Released(s, RefsOf(s, scope));
            && Consistent(s') && scope !in s'.scopeToRefs
            && (ref in s'.refs <==> ref in s.refs && s.refToScope[ref] != scope)
            && (ref in s'.refs ==> s'.refs[ref] == s.refs[ref] && s'.refToScope[ref] == s.refToScope[ref])
            && (forall other :: other in s.scopeToRefs && other != scope ==>
                  other in s'.scopeToRefs && s'.scopeToRefs[other] == s.scopeToRefs[other])
  {
    var gone := RefsOf(s, scope);
    WithoutKeeps(s, gone);
    forall other | other in s.scopeToRefs && other != scope
      ensures s.scopeToRefs[other] - gone == s.scopeToRefs[other]
    {
      ScopesDisjoint(s, scope, other);
    }
  }

  lemma {:induction false} ScopesDisjoint(s: State, scope: string, other: string)
    requires Consistent(s) && other in s.scopeToRefs && other != scope
    ensures s.scopeToRefs[other] - RefsOf(s, scope) == s.scopeToRefs[other]
  {
    forall ref | ref in s.scopeToRefs[other] ensures ref !in RefsOf(s, scope) {
      assert s.refToScope[ref] == other;
    }
  }

  /** Cleaning removes exactly the references older than the cutoff. */
  lemma {:induction false} CleanExact(s: State, cutoff: int, ref: string)
    requires Consistent(s)
    ensures var s' := Cleaned(s, cutoff);
            && Consistent(s')
            && (ref in s'.refs <==> ref in s.refs && s.refs[ref].storedAt >= cutoff)
            && (ref in s'.refs ==> s'.refs[ref] == s.refs[ref])
  {
    WithoutKeeps(s, Expired(s, cutoff));
  }

  /** Every reference still leads to a file. */
  ghost predicate Backed(s: State) { forall ref :: ref in s.refs ==> s.refs[ref].path in s.files }

  /** Two references, one of them removed, share a file. */
  ghost predicate Shares(s: State, gone: set<string>) {
    exists kept, lost ::
      kept in s.refs && kept !in gone && lost in s.refs && lost in gone && s.refs[kept].path == s.refs[lost].path
  }

  /** Files are deleted without a look at other references: those left are backed exactly when they share no file. */
  lemma {:induction false} RemovalKeepsBackedIff(s: State, gone: set<string>)
    requires Backed(s)
    ensures Backed(Released(s, gone)) <==> !Shares(s, gone)
  {
    var s' := Released(s, gone);
    if Shares(s, gone) {
      var kept, lost :|
        kept in s.refs && kept !in gone && lost in s.refs && lost in gone && s.refs[kept].path == s.refs[lost].path;
      assert s.refs[lost].path in Paths(s.refs, gone);
      assert kept in s'.refs && s'.refs[kept].path !in s'.files;
    } else {
      forall ref | ref in s'.refs ensures s'.refs[ref].path in s'.files {
        assert ref in s.refs && ref !in gone;
      }
    }
  }

  /** One file registered in two scopes: releasing one of them takes the file from the other. */
  lemma {:induction false} SharedFileLost(
      path: string, at: int, first: string, second: string, one: string, two: string)
    requires first != second && one != two
    ensures var s := Stored(EMPTY.(files := {path}), first, Entry(path, at), one);
            var s' := Stored(s, second, Entry(path, at), two);
            Consistent(s') && Backed(s') && !Backed(Released(s', RefsOf(s', one)))
  {
    var s0 := EMPTY.(files := {path});
    var s := Stored(s0, first, Entry(path, at), one);
    var s' := Stored(s, second, Entry(path, at), two);
    StoreKeeps(s0, first, Entry(path, at), one);
    StoreKeeps(s, second, Entry(path, at), two);
    var gone := RefsOf(s', one);
    assert first in gone && second !in gone;
    assert s'.refs[second].path == s'.refs[first].path;
    RemovalKeepsBackedIff(s', gone);
  }

  // ------------------------------------------------------------------ the store

  /** Taking one more reference out of its scope. */
  function ScopesAfter(scopes: map<string, set<string>>, scope: string, ref: string): map<string, set<string>>
    requires scope in scopes
  {
    var left := scopes[scope] - {ref};
    if left == {} then scopes - {scope} else scopes[scope := left]
  }

  lemma {:induction false} ScopesWithoutOne(
      scopes: map<string, set<string>>, gone: set<string>, scope: string, ref: string)
    requires scope in scopes && ref in scopes[scope] && ref !in gone
    requires forall other :: other in scopes && other != scope ==> ref !in scopes[other]
    ensures scope in ScopesWithout(scopes, gone)
    ensures ScopesWithout(scopes, gone + {ref}) == ScopesAfter(ScopesWithout(scopes, gone), scope, ref)
  {
    assert ref in scopes[scope] - gone;
    assert scopes[scope] - (gone + {ref}) == scopes[scope] - gone - {ref};
    forall other | other in scopes && other != scope ensures scopes[other] - (gone + {ref}) == scopes[other] - gone {
    }
  }

  lemma {:induction false} WithoutOne(s: State, gone: set<string>, ref: string)
    requires Consistent(s) && ref in s.refs && ref !in gone
    ensures var s', scope := Without(s, gone), s.refToScope[ref];
            && scope in s'.scopeToRefs && ref in s'.refs && ref in s'.refToScope && s'.refToScope[ref] == scope
            && Without(s, gone + {ref}) ==
               State(s'.refs - {ref}, ScopesAfter(s'.scopeToRefs, scope, ref), s'.refToScope - {ref}, s.files)
  {
    var s', scope := Without(s, gone), s.refToScope[ref];
    assert ref in s.scopeToRefs[scope];
    ScopesWithoutOne(s.scopeToRefs, gone, scope, ref);
    assert s.refs - (gone + {ref}) == s'.refs - {ref};
    assert s.refToScope - (gone + {ref}) == s'.refToScope - {ref};
  }

  class FileMediaStore {
    var refs: map<string, Entry>
    var scopeToRefs: map<string, set<string>>
    var refToScope: map<string, string>
    var files: set<string>
    const maxAge: int

    ghost function Snapshot(): State
      reads this
    {
      State(refs, scopeToRefs, refToScope, files)
    }

    ghost predicate Valid()
      reads this
    {
      Snapshot() in ConsistentStates()
    }

    constructor (maxAge: int)
      ensures Valid() && Snapshot() == EMPTY && this.maxAge == maxAge
    {
      this.maxAge := maxAge;
      refs, scopeToRefs, refToScope, files := map[], map[], map[], {};
    }

    /** References come from a generator that does not repeat. */
    method Store(path: string, scope: string, ref: string, now: int) returns (ok: bool)
      requires Valid() && ref !in refs
      modifies this
      ensures Valid() && ok == (path in old(files))
      ensures Snapshot() == if ok then Stored(old(Snapshot()), ref, Entry(path, now), scope) else old(Snapshot())
    {
      if path !in files {
        return false;
      }
      StoreKeeps(Snapshot(), ref, Entry(path, now), scope);
      refs := refs[ref := Entry(path, now)];
      scopeToRefs := scopeToRefs[scope := (if scope in scopeToRefs then scopeToRefs[scope] else {}) + {ref}];
      refToScope := refToScope[ref := scope];
      return true;
    }

    method Resolve(ref: string) returns (found: bool, path: string)
      ensures found == (ref in refs) && (found ==> path == refs[ref].path)
    {
      if ref !in refs {
        return false, "";
      }
      return true, refs[ref].path;
    }

    method ReleaseAll(scope: string)
      requires Valid()
      modifies this
      ensures Valid() && Snapshot() == Released(old(Snapshot()), RefsOf(old(Snapshot()), scope))
    {
      ghost var s := Snapshot();
      WithoutKeeps(s, RefsOf(s, scope));
      if scope !in scopeToRefs {
        ReleaseNothing(s);
        return;
      }
      var all := scopeToRefs[scope];
      var paths := DropRefs(all);
      ReleasedScope(s, scope);
      scopeToRefs := scopeToRefs - {scope};
      files := files - paths;
    }

    /** Takes references out of the two maps keyed by them, collecting the paths. */
    method DropRefs(all: set<string>) returns (paths: set<string>)
      modifies this`refs, this`refToScope
      ensures refs == old(refs) - all && refToScope == old(refToScope) - all && paths == Paths(old(refs), all)
    {
      ghost var before, done := refs, {};
      paths := {};
      var todo := all;
      while todo != {}
        invariant todo <= all && done == all - todo
        invariant refs == before - done && refToScope == old(refToScope) - done && paths == Paths(before, done)
        decreases todo
      {
        var ref :| ref in todo;
        PathsOne(before, done, ref);
        if ref in refs {
          paths := paths + {refs[ref].path};
        }
        refs, refToScope := refs - {ref}, refToScope - {ref};
        done, todo := done + {ref}, todo - {ref};
      }
      assert done == all;
    }

    method CleanExpired(now: int) returns (removed: nat)
      requires Valid()
      modifies this
      ensures Valid()
      ensures maxAge <= 0 ==> Snapshot() == old(Snapshot()) && removed == 0
      ensures maxAge > 0 ==> Snapshot() == Cleaned(old(Snapshot()), now - maxAge)
      ensures maxAge > 0 ==> removed == |Expired(old(Snapshot()), now - maxAge)|
    {
      if maxAge <= 0 {
        return 0;
      }
      var cutoff := now - maxAge;
      ghost var s := Snapshot();
      var paths;
      ghost var gone;
      paths, removed, gone := DropExpired(s, cutoff);
      DeleteFiles(paths, s, gone);
    }

    method DropExpired(ghost s: State, cutoff: int) returns (paths: set<string>, removed: nat, ghost gone: set<string>)
      requires s in ConsistentStates() && s == Snapshot()
      modifies this`refs, this`scopeToRefs, this`refToScope
      ensures Removal(Snapshot(), paths) in Removals(s, gone)
      ensures gone == Expired(s, cutoff) && removed == |gone|
    {
      var todo := refs.Keys;
      paths, removed, gone := {}, 0, {};
      NothingRemoved(s, cutoff);
      while todo != {}
        invariant Sweep(todo, gone, removed) in Sweeps(s, cutoff) && Removal(Snapshot(), paths) in Removals(s, gone)
        decreases todo
      {
        var ref :| ref in todo;
        SweepOne(s, cutoff, todo, gone, removed, ref);
        var expired;
        expired, paths, gone := CleanOne(ref, cutoff, paths, s, gone);
        removed := removed + if expired then 1 else 0;
        todo := todo - {ref};
      }
      SweepEnd(s, cutoff, todo, gone, removed);
    }

    /** The files go after the maps are in order. */
    method DeleteFiles(paths: set<string>, ghost s: State, ghost gone: set<string>)
      requires s in ConsistentStates() && Removal(Snapshot(), paths) in Removals(s, gone)
      modifies this`files
      ensures Valid() && Snapshot() == Released(s, gone)
    {
      WithoutKeeps(s, gone);
      files := files - paths;
    }

    /** Drops one reference when it is older than the cutoff. */
    method CleanOne(ref: string, cutoff: int, before: set<string>, ghost s: State, ghost gone: set<string>)
      returns (expired: bool, paths: set<string>, ghost gone': set<string>)
      requires s in ConsistentStates() && ref in s.refs && ref !in gone
      requires Removal(Snapshot(), before) in Removals(s, gone)
      modifies this`refs, this`scopeToRefs, this`refToScope
      ensures expired == (s.refs[ref].storedAt < cutoff)
      ensures gone' == if expired then gone + {ref} else gone
      ensures Removal(Snapshot(), paths) in Removals(s, gone')
    {
      WithoutOne(s, gone, ref);
      PathsOne(s.refs, gone, ref);
      paths, gone' := before, gone;
      expired := refs[ref].storedAt < cutoff;
      if expired {
        paths, gone' := paths + {refs[ref].path}, gone + {ref};
        DropRef(ref);
      }
    }

    /** Takes a reference out of all three maps, and its scope when it was the last one. */
    method DropRef(ref: string)
      requires ref in refs && ref in refToScope && refToScope[ref] in scopeToRefs
      modifies this`refs, this`scopeToRefs, this`refToScope
      ensures refs == old(refs) - {ref} && refToScope == old(refToScope) - {ref}
      ensures scopeToRefs == ScopesAfter(old(scopeToRefs), old(refToScope)[ref], ref)
    {
      var scope := refToScope[ref];
      var left := scopeToRefs[scope] - {ref};
      if |left| == 0 {
        scopeToRefs := scopeToRefs - {scope};
      } else {
        scopeToRefs := scopeToRefs[scope := left];
      }
      refs, refToScope := refs - {ref}, refToScope - {ref};
    }
  }

  lemma {:induction false} ReleaseNothing(s: State)
    requires Consistent(s)
    ensures Without(s, {}) == s && Released(s, {}) == s
  {
    assert forall scope :: scope in s.scopeToRefs ==> s.scopeToRefs[scope] - {} == s.scopeToRefs[scope];
    assert s.refs - {} == s.refs && s.refToScope - {} == s.refToScope;
    assert Without(s, {}).scopeToRefs == s.scopeToRefs;
    assert s.files - Paths(s.refs, {}) == s.files;
  }

  /** How far a sweep over the references has come. */
  datatype Sweep = Sweep(todo: set<string>, gone: set<string>, removed: nat)

  ghost function Sweeps(s: State, cutoff: int): iset<Sweep> {
    iset w: Sweep | w.todo <= s.refs.Keys && w.gone == Expired(s, cutoff) - w.todo && w.removed == |w.gone|
  }

  lemma {:induction false} NothingRemoved(s: State, cutoff: int)
    requires s in ConsistentStates()
    ensures Sweep(s.refs.Keys, {}, 0) in Sweeps(s, cutoff) && Removal(s, {}) in Removals(s, {})
  {
    ReleaseNothing(s);
    assert Expired(s, cutoff) - s.refs.Keys == {};
    assert Paths(s.refs, {}) == {};
  }

  lemma {:induction false} SweepOne(
      s: State, cutoff: int, todo: set<string>, gone: set<string>, removed: nat, ref: string)
    requires Sweep(todo, gone, removed) in Sweeps(s, cutoff) && ref in todo
    ensures ref in s.refs && ref !in gone
    ensures s.refs[ref].storedAt < cutoff ==> Sweep(todo - {ref}, gone + {ref}, removed + 1) in Sweeps(s, cutoff)
    ensures !(s.refs[ref].storedAt < cutoff) ==> Sweep(todo - {ref}, gone, removed) in Sweeps(s, cutoff)
  {
    if s.refs[ref].storedAt < cutoff {
      assert gone + {ref} == Expired(s, cutoff) - (todo - {ref});
    } else {
      assert gone == Expired(s, cutoff) - (todo - {ref});
    }
  }

  lemma {:induction false} SweepEnd(s: State, cutoff: int, todo: set<string>, gone: set<string>, removed: nat)
    requires Sweep(todo, gone, removed) in Sweeps(s, cutoff) && todo == {}
    ensures gone == Expired(s, cutoff) && removed == |gone|
  {
  }

  lemma {:induction false} PathsOne(refs: map<string, Entry>, gone: set<string>, ref: string)
    ensures Paths(refs, gone + {ref}) == Paths(refs, gone) + if ref in refs then {refs[ref].path} else {}
  {
  }

  lemma {:induction false} ReleasedScope(s: State, scope: string)
    requires Consistent(s) && scope in s.scopeToRefs
    ensures Without(s, s.scopeToRefs[scope]).scopeToRefs == s.scopeToRefs - {scope}
  {
    var gone := s.scopeToRefs[scope];
    forall other | other in s.scopeToRefs && other != scope
      ensures s.scopeToRefs[other] - gone == s.scopeToRefs[other]
    {
      ScopesDisjoint(s, scope, other);
    }
    assert gone - gone == {};
  }
}
