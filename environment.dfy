/**
 * Resolution of environment entries. An entry containing `=` is fully qualified and left alone;
 * a bare `NAME` is replaced by the last entry of a source list whose name is `NAME`.
 * The same rule is applied with different sources by environment.go, steps.go, services.go
 * and insulatr.go.
 */
module Environment {
  import opened Wrappers
  import opened Text

  /** The variable that names the SSH agent's socket. */
  const AgentVariable := "SSH_AUTH_SOCK"

  predicate Qualified(entry: string) {
    '=' in entry
  }

  /** Position of the last entry of `source` named `name`, or -1. */
  function LastMatch(source: seq<string>, name: string): (k: int)
    ensures -1 <= k < |source|
    ensures k >= 0 ==> Key(source[k]) == name
    ensures forall j :: k < j < |source| ==> Key(source[j]) != name
  {
    if |source| == 0 then -1
    else if Key(source[|source| - 1]) == name then |source| - 1
    else LastMatch(source[..|source| - 1], name)
  }

  /** What one entry becomes: itself if qualified, else the last matching source entry. */
  function Resolve(entry: string, source: seq<string>): Option<string>
  {
    if Qualified(entry) then Some(entry)
    else
      var k := LastMatch(source, entry);
      if k < 0 then None else Some(source[k])
  }

  /**
   * Expansion with an early stop: entries are resolved front to back; at the first entry that
   * cannot be resolved the expansion stops, reports that entry, and leaves it and all later
   * entries as they were.
   */
  datatype Expansion = Expansion(entries: seq<string>, unresolved: Option<string>)

  function Expand(entries: seq<string>, source: seq<string>): (r: Expansion)
    ensures |r.entries| == |entries|
  {
    if entries == [] then Expansion([], None)
    else
      match Resolve(entries[0], source)
      case None => Expansion(entries, Some(entries[0]))
      case Some(v) =>
        var rest := Expand(entries[1..], source);
        Expansion([v] + rest.entries, rest.unresolved)
  }

  /** Index of the first entry that cannot be resolved, or `|entries|`. */
  function FirstUnresolved(entries: seq<string>, source: seq<string>): (f: nat)
    ensures f <= |entries|
    ensures forall k :: 0 <= k < f ==> Resolve(entries[k], source).Some?
    ensures f < |entries| ==> Resolve(entries[f], source).None?
  {
    if entries == [] then 0
    else if Resolve(entries[0], source).None? then 0
    else 1 + FirstUnresolved(entries[1..], source)
  }

  /**
   * The expansion, entry by entry: every entry before the first unresolved one is replaced by its
   * resolution, the rest are untouched, and the unresolved entry (if any) is reported.
   */
  lemma {:induction false} ExpandAt(entries: seq<string>, source: seq<string>)
    ensures var r, f := Expand(entries, source), FirstUnresolved(entries, source);
      && (forall k :: 0 <= k < f ==> r.entries[k] == Resolve(entries[k], source).value)
      && (forall k :: f <= k < |entries| ==> r.entries[k] == entries[k])
      && r.unresolved == (if f < |entries| then Some(entries[f]) else None)
  {
    forall k | 0 <= k < |entries|
      ensures Expand(entries, source).entries[k] ==
        (if k < FirstUnresolved(entries, source) then Resolve(entries[k], source).value else entries[k])
    {
      ExpandEntry(entries, source, k);
    }
    ExpandReports(entries, source);
  }

  lemma {:induction false} ExpandEntry(entries: seq<string>, source: seq<string>, k: nat)
    requires k < |entries|
    ensures Expand(entries, source).entries[k] ==
      (if k < FirstUnresolved(entries, source) then Resolve(entries[k], source).value else entries[k])
  {
    var first := Resolve(entries[0], source);
    if first.None? {
      assert Expand(entries, source).entries == entries;
    } else if k > 0 {
      var rest := Expand(entries[1..], source);
      assert Expand(entries, source).entries == [first.value] + rest.entries;
      assert FirstUnresolved(entries, source) == 1 + FirstUnresolved(entries[1..], source);
      ExpandEntry(entries[1..], source, k - 1);
      assert entries[1..][k - 1] == entries[k];
    }
  }

  lemma {:induction false} ExpandReports(entries: seq<string>, source: seq<string>)
    ensures var f := FirstUnresolved(entries, source);
      Expand(entries, source).unresolved == (if f < |entries| then Some(entries[f]) else None)
  {
    if entries != [] && Resolve(entries[0], source).Some? {
      ExpandReports(entries[1..], source);
      assert entries[1..][FirstUnresolved(entries[1..], source)..] == entries[FirstUnresolved(entries, source)..];
    }
  }

  /** Qualified entries are never changed, however the expansion ends. */
  lemma QualifiedUnchanged(entries: seq<string>, source: seq<string>, k: nat)
    requires k < |entries| && Qualified(entries[k])
    ensures Expand(entries, source).entries[k] == entries[k]
  {
    ExpandAt(entries, source);
  }

  /** The expansion succeeds exactly when every entry resolves; then each bare entry is its last match. */
  lemma ExpandSucceeds(entries: seq<string>, source: seq<string>)
    ensures Expand(entries, source).unresolved.None? <==>
      forall k :: 0 <= k < |entries| ==> Resolve(entries[k], source).Some?
    ensures Expand(entries, source).unresolved.None? ==>
      forall k :: 0 <= k < |entries| && !Qualified(entries[k]) ==>
        Expand(entries, source).entries[k] == source[LastMatch(source, entries[k])]
  {
    ExpandAt(entries, source);
  }

  /** A fully qualified list is returned unchanged. */
  lemma {:induction false} ExpandQualified(entries: seq<string>, source: seq<string>)
    requires forall k :: 0 <= k < |entries| ==> Qualified(entries[k])
    ensures Expand(entries, source) == Expansion(entries, None)
  {
    if entries != [] {
      ExpandQualified(entries[1..], source);
      assert [entries[0]] + entries[1..] == entries;
    }
  }

  /** When every source entry is qualified, a successful expansion leaves nothing for a second one to do. */
  lemma ExpandIdempotent(entries: seq<string>, source: seq<string>)
    requires forall j :: 0 <= j < |source| ==> Qualified(source[j])
    requires Expand(entries, source).unresolved.None?
    ensures Expand(Expand(entries, source).entries, source) == Expand(entries, source)
  {
    var r := Expand(entries, source);
    ExpandAt(entries, source);
    assert forall k :: 0 <= k < |entries| ==> Qualified(r.entries[k]);
    ExpandQualified(r.entries, source);
  }

  /**
   * The inner loop of every resolution site: scan the whole source and keep the last entry whose
   * name matches.
   */
  method FindLastMatch(source: seq<string>, name: string) returns (found: bool, entry: string)
    ensures found <==> LastMatch(source, name) >= 0
    ensures found ==> entry == source[LastMatch(source, name)]
  {
    found, entry := false, "";
    for i := 0 to |source|
      invariant found <==> LastMatch(source[..i], name) >= 0
      invariant found ==> entry == source[LastMatch(source[..i], name)]
    {
      assert source[..i + 1][..i] == source[..i];
      if Key(source[i]) == name {
        entry := source[i];
        found := true;
      }
    }
    assert source[..|source|] == source;
  }

  /** The body of the outer loop at every resolution site: one entry, resolved against `source`. */
  method ResolveOne(entry: string, source: seq<string>) returns (r: Option<string>)
    ensures r == Resolve(entry, source)
  {
    if Qualified(entry) {
      return Some(entry);
    }
    var found, matching := FindLastMatch(source, entry);
    r := if found then Some(matching) else None;
  }

  /** One step of the expansion: the first entry is resolved, or the expansion stops there. */
  lemma ExpandCons(entries: seq<string>, source: seq<string>, done: seq<string>, i: nat)
    requires i < |entries|
    ensures Resolve(entries[i], source).None? ==>
      Expansion(done + Expand(entries[i..], source).entries, Expand(entries[i..], source).unresolved)
      == Expansion(done + entries[i..], Some(entries[i]))
    ensures Resolve(entries[i], source).Some? ==>
      Expansion(done + Expand(entries[i..], source).entries, Expand(entries[i..], source).unresolved)
      == Expansion((done + [Resolve(entries[i], source).value]) + Expand(entries[i + 1..], source).entries,
                   Expand(entries[i + 1..], source).unresolved)
  {
    assert entries[i..][0] == entries[i] && entries[i..][1..] == entries[i + 1..];
  }

  /**
   * environment.go `expandGlobalEnvironment`: rewrites the list in place and returns the first
   * bare name without a match. Entries before it are already rewritten, it and the later ones are
   * untouched. steps.go and services.go run the same loop over their own lists.
   */
  method ExpandInPlace(environment: array<string>, source: seq<string>) returns (unresolved: Option<string>)
    modifies environment
    ensures environment[..] == Expand(old(environment[..]), source).entries
    ensures unresolved == Expand(old(environment[..]), source).unresolved
  {
    ghost var original := environment[..];
    ghost var done: seq<string> := [];
    for index := 0 to environment.Length
      invariant |done| == index
      invariant environment[..] == done + original[index..]
      invariant Expand(original, source) ==
        Expansion(done + Expand(original[index..], source).entries, Expand(original[index..], source).unresolved)
    {
      var entry := environment[index];
      assert entry == original[index..][0];
      var r := ResolveOne(entry, source);
      if r.None? {
        assert Expand(original, source) == Expansion(done + original[index..], Some(entry)) by {
          ExpandCons(original, source, done, index);
        }
        return Some(entry);
      }
      ghost var rest := Expand(original[index + 1..], source);
      assert Expand(original, source) == Expansion((done + [r.value]) + rest.entries, rest.unresolved) by {
        ExpandCons(original, source, done, index);
      }
      ReplaceNext(done, r.value, original[index..]);
      assert original[index..][1..] == original[index + 1..];
      environment[index] := r.value;
      done := done + [r.value];
    }
    assert done + [] == done;
    unresolved := None;
  }

  /** Writing `v` just after `done` replaces the first of the remaining entries. */
  lemma ReplaceNext(done: seq<string>, v: string, remaining: seq<string>)
    requires |remaining| > 0
    ensures (done + remaining)[|done| := v] == (done + [v]) + remaining[1..]
  {
  }

  /**
   * The variant used by insulatr.go for step environments: every entry is visited, bare entries
   * with a match are rewritten, those without are left alone.
   */
  function ResolveEach(entries: seq<string>, source: seq<string>): (r: seq<string>)
    ensures |r| == |entries|
    ensures forall k :: 0 <= k < |entries| ==> r[k] == Resolve(entries[k], source).GetOr(entries[k])
  {
    seq(|entries|, k requires 0 <= k < |entries| => Resolve(entries[k], source).GetOr(entries[k]))
  }

  /** The last entry that cannot be resolved, whose error is the one insulatr.go keeps. */
  function LastUnresolved(entries: seq<string>, source: seq<string>): (r: Option<string>)
    ensures r.None? <==> forall k :: 0 <= k < |entries| ==> Resolve(entries[k], source).Some?
    ensures r.Some? ==>
      exists k :: 0 <= k < |entries| && entries[k] == r.value && Resolve(entries[k], source).None? &&
        forall j :: k < j < |entries| ==> Resolve(entries[j], source).Some?
  {
    if entries == [] then None
    else if Resolve(entries[|entries| - 1], source).None? then Some(entries[|entries| - 1])
    else
      var r := LastUnresolved(entries[..|entries| - 1], source);
      assert forall k :: 0 <= k < |entries| - 1 ==> entries[..|entries| - 1][k] == entries[k];
      r
  }

  /** Both rules fail on the same lists, and agree on the result when nothing is missing. */
  lemma ResolveEachAgrees(entries: seq<string>, source: seq<string>)
    ensures LastUnresolved(entries, source).None? <==> Expand(entries, source).unresolved.None?
    ensures LastUnresolved(entries, source).None? ==>
      ResolveEach(entries, source) == Expand(entries, source).entries
  {
    ExpandAt(entries, source);
  }

  /**
   * insulatr.go step environment loop: rewrites a copy of the list entry by entry, without
   * stopping at an unresolved name, and reports the last one.
   */
  method ResolveAll(entries: seq<string>, source: seq<string>) returns (resolved: seq<string>, unresolved: Option<string>)
    ensures resolved == ResolveEach(entries, source)
    ensures unresolved == LastUnresolved(entries, source)
  {
    resolved, unresolved := entries, None;
    for index := 0 to |entries|
      invariant |resolved| == |entries|
      invariant forall k :: 0 <= k < index ==> resolved[k] == Resolve(entries[k], source).GetOr(entries[k])
      invariant forall k :: index <= k < |entries| ==> resolved[k] == entries[k]
      invariant unresolved == LastUnresolved(entries[..index], source)
    {
      assert entries[..index + 1][..index] == entries[..index];
      assert entries[..index + 1][index] == entries[index];
      var r := ResolveOne(entries[index], source);
      if r.Some? {
        resolved := resolved[index := r.value];
      } else {
        unresolved := Some(entries[index]);
      }
    }
    assert entries[..|entries|] == entries;
  }
}
