/** `searchFilesInRoots`: a depth-first scan of the allowed roots for
    entries whose lower-cased name contains the query, skipping
    directories named "node_modules" or ".git", never listing a directory
    deeper than 8 levels, and stopping at 30 results. */
module Search {
  import opened Text
  import opened Json
  import opened Sandbox

  const MaxResults := 30
  const MaxDepth := 8

  /** A directory entry: `isDirectory()` or not. */
  datatype Entry = File(name: string) | Dir(name: string, listing: Listing)

  /** What `readdir` gives for a directory: its entries in order, or an
      error (which the walk ignores). */
  datatype Listing = Unreadable | Readable(entries: seq<Entry>)

  /** The file system as the search sees it: the listing of each root. */
  function ListingOf(fs: map<AbsPath, Listing>, p: AbsPath): Listing
  {
    if p in fs then fs[p] else Unreadable
  }

  predicate IsNoisy(name: string)
  {
    Lower(name) == "node_modules" || Lower(name) == ".git"
  }

  /** `path.join(dir, name)` for an entry name from `readdir`. */
  function Child(dir: AbsPath, name: string): AbsPath
  {
    AbsPath(dir.device, dir.names + [name])
  }

  predicate Hits(name: string, q: string)
  {
    Contains(Lower(name), q)
  }

  // ---------------------------------------------------------------------
  // The walk as the source performs it: results accumulate in `acc`, and
  // the traversal stops as soon as 30 are found.
  // ---------------------------------------------------------------------

  function Walk(dir: AbsPath, l: Listing, depth: nat, q: string, acc: seq<AbsPath>): seq<AbsPath>
    decreases l, 1, 0
  {
    if depth > MaxDepth || |acc| >= MaxResults then acc
    else if l.Unreadable? then acc
    else WalkFrom(dir, l, 0, depth, q, acc)
  }

  /** The loop over the entries of `l` from index `i` on. */
  function WalkFrom(dir: AbsPath, l: Listing, i: nat, depth: nat, q: string, acc: seq<AbsPath>): seq<AbsPath>
    requires l.Readable? && i <= |l.entries|
    decreases l, 0, |l.entries| - i
  {
    if i == |l.entries| || |acc| >= MaxResults then acc
    else
      var e := l.entries[i];
      var full := Child(dir, e.name);
      if e.Dir? && IsNoisy(e.name) then WalkFrom(dir, l, i + 1, depth, q, acc)
      else
        var acc1 := if Hits(e.name, q) then acc + [full] else acc;
        if |acc1| >= MaxResults then acc1
        else
          var acc2 := if e.Dir? then Walk(full, e.listing, depth + 1, q, acc1) else acc1;
          WalkFrom(dir, l, i + 1, depth, q, acc2)
  }

  /** The loop over the roots, with its `break` once 30 are found. */
  function WalkRoots(fs: map<AbsPath, Listing>, roots: seq<AbsPath>, i: nat, q: string, acc: seq<AbsPath>): seq<AbsPath>
    requires i <= |roots|
    decreases |roots| - i
  {
    if i == |roots| then acc
    else
      var acc1 := Walk(roots[i], ListingOf(fs, roots[i]), 0, q, acc);
      if |acc1| >= MaxResults then acc1 else WalkRoots(fs, roots, i + 1, q, acc1)
  }

  const MissingQuery := "Missing search query"

  /** The query is converted to text, lower-cased and trimmed; an empty
      one is refused. */
  function SearchFiles(query: Option<Value>, fs: map<AbsPath, Listing>, roots: seq<AbsPath>): Result<seq<AbsPath>>
  {
    match StrOrEmpty(query)
    case Err(m) => Err(m)
    case Ok(text) =>
      var q := Trim(Lower(text));
      if q == "" then Err(MissingQuery) else Ok(WalkRoots(fs, roots, 0, q, []))
  }

  // ---------------------------------------------------------------------
  // The reference: every match in depth-first order, without the cap.
  // ---------------------------------------------------------------------

  function Matches(dir: AbsPath, l: Listing, depth: nat, q: string): seq<AbsPath>
    decreases l, 1, 0
  {
    if depth > MaxDepth || l.Unreadable? then []
    else MatchesFrom(dir, l, 0, depth, q)
  }

  function MatchesFrom(dir: AbsPath, l: Listing, i: nat, depth: nat, q: string): seq<AbsPath>
    requires l.Readable? && i <= |l.entries|
    decreases l, 0, |l.entries| - i
  {
    if i == |l.entries| then []
    else
      var e := l.entries[i];
      var full := Child(dir, e.name);
      if e.Dir? && IsNoisy(e.name) then MatchesFrom(dir, l, i + 1, depth, q)
      else
        (if Hits(e.name, q) then [full] else [])
        + (if e.Dir? then Matches(full, e.listing, depth + 1, q) else [])
        + MatchesFrom(dir, l, i + 1, depth, q)
  }

  function AllMatches(fs: map<AbsPath, Listing>, roots: seq<AbsPath>, i: nat, q: string): seq<AbsPath>
    requires i <= |roots|
    decreases |roots| - i
  {
    if i == |roots| then []
    else Matches(roots[i], ListingOf(fs, roots[i]), 0, q) + AllMatches(fs, roots, i + 1, q)
  }

  /** The first 30 of `s`. */
  function Cap(s: seq<AbsPath>): (r: seq<AbsPath>)
    ensures |r| <= MaxResults || |r| == |s|
  {
    if |s| <= MaxResults then s else s[..MaxResults]
  }

  lemma CapAppend(x: seq<AbsPath>, y: seq<AbsPath>)
    ensures Cap(Cap(x) + y) == Cap(x + y)
  {
    if |x| > MaxResults {
      assert (x + y)[..MaxResults] == x[..MaxResults];
      assert (x[..MaxResults] + y)[..MaxResults] == x[..MaxResults];
    }
  }

  lemma CapFull(x: seq<AbsPath>, y: seq<AbsPath>)
    requires |x| == MaxResults
    ensures Cap(x + y) == x
  {
    assert (x + y)[..MaxResults] == x;
  }

  /** The early returns of the walk lose nothing but what lies beyond the
      first 30 matches: the walk yields exactly the first 30 of the
      depth-first matches, after what was already found. */
  lemma {:induction false} WalkIsCappedMatches(dir: AbsPath, l: Listing, depth: nat, q: string, acc: seq<AbsPath>)
    requires |acc| <= MaxResults
    ensures Walk(dir, l, depth, q, acc) == Cap(acc + Matches(dir, l, depth, q))
    decreases l, 1, 0
  {
    if depth > MaxDepth || l.Unreadable? {
      assert acc + [] == acc;
    } else if |acc| >= MaxResults {
      CapFull(acc, Matches(dir, l, depth, q));
    } else {
      WalkFromIsCappedMatches(dir, l, 0, depth, q, acc);
    }
  }

  lemma {:induction false} WalkFromIsCappedMatches(dir: AbsPath, l: Listing, i: nat, depth: nat, q: string, acc: seq<AbsPath>)
    requires l.Readable? && i <= |l.entries| && |acc| <= MaxResults
    ensures WalkFrom(dir, l, i, depth, q, acc) == Cap(acc + MatchesFrom(dir, l, i, depth, q))
    decreases l, 0, |l.entries| - i
  {
    if i == |l.entries| {
      assert acc + [] == acc;
    } else if |acc| >= MaxResults {
      CapFull(acc, MatchesFrom(dir, l, i, depth, q));
    } else {
      var e := l.entries[i];
      if e.Dir? && IsNoisy(e.name) {
        WalkFromIsCappedMatches(dir, l, i + 1, depth, q, acc);
      } else {
        var full := Child(dir, e.name);
        var m := if Hits(e.name, q) then [full] else [];
        var sub := if e.Dir? then Matches(full, e.listing, depth + 1, q) else [];
        var rest := MatchesFrom(dir, l, i + 1, depth, q);
        var acc1 := acc + m;
        MatchesFromStep(dir, l, i, depth, q);
        if |acc1| >= MaxResults {
          WalkFromStep(dir, l, i, depth, q, acc);
          CapFull(acc1, sub + rest);
          assert acc + (m + sub + rest) == acc1 + (sub + rest);
        } else {
          var acc2 := if e.Dir? then Walk(full, e.listing, depth + 1, q, acc1) else acc1;
          WalkFromStep(dir, l, i, depth, q, acc);
          if e.Dir? {
            WalkIsCappedMatches(full, e.listing, depth + 1, q, acc1);
          } else {
            assert acc1 + [] == acc1;
          }
          WalkFromIsCappedMatches(dir, l, i + 1, depth, q, acc2);
          CapStep(acc, m, sub, rest, acc2);
        }
      }
    }
  }

  lemma CapStep(acc: seq<AbsPath>, m: seq<AbsPath>, sub: seq<AbsPath>, rest: seq<AbsPath>, acc2: seq<AbsPath>)
    requires acc2 == Cap(acc + m + sub)
    ensures Cap(acc2 + rest) == Cap(acc + (m + sub + rest))
  {
    CapAppend(acc + m + sub, rest);
    assert acc + m + sub + rest == acc + (m + sub + rest);
  }

  /** One step of the entry loop of the walk, for an entry that is not a
      noisy directory. */
  lemma WalkFromStep(dir: AbsPath, l: Listing, i: nat, depth: nat, q: string, acc: seq<AbsPath>)
    requires l.Readable? && i < |l.entries| && |acc| < MaxResults
    requires !(l.entries[i].Dir? && IsNoisy(l.entries[i].name))
    ensures var e := l.entries[i];
            var full := Child(dir, e.name);
            var acc1 := if Hits(e.name, q) then acc + [full] else acc;
            var acc2 := if e.Dir? then Walk(full, e.listing, depth + 1, q, acc1) else acc1;
            WalkFrom(dir, l, i, depth, q, acc)
            == if |acc1| >= MaxResults then acc1 else WalkFrom(dir, l, i + 1, depth, q, acc2)
  {
  }

  lemma MatchesFromStep(dir: AbsPath, l: Listing, i: nat, depth: nat, q: string)
    requires l.Readable? && i < |l.entries|
    requires !(l.entries[i].Dir? && IsNoisy(l.entries[i].name))
    ensures var e := l.entries[i];
            var full := Child(dir, e.name);
            MatchesFrom(dir, l, i, depth, q)
            == (if Hits(e.name, q) then [full] else [])
               + (if e.Dir? then Matches(full, e.listing, depth + 1, q) else [])
               + MatchesFrom(dir, l, i + 1, depth, q)
  {
  }

  lemma {:induction false} WalkRootsIsCappedMatches(fs: map<AbsPath, Listing>, roots: seq<AbsPath>, i: nat, q: string, acc: seq<AbsPath>)
    requires i <= |roots| && |acc| <= MaxResults
    ensures WalkRoots(fs, roots, i, q, acc) == Cap(acc + AllMatches(fs, roots, i, q))
    decreases |roots| - i
  {
    if i == |roots| {
      assert acc + [] == acc;
    } else {
      var m := Matches(roots[i], ListingOf(fs, roots[i]), 0, q);
      var rest := AllMatches(fs, roots, i + 1, q);
      WalkIsCappedMatches(roots[i], ListingOf(fs, roots[i]), 0, q, acc);
      var acc1 := Cap(acc + m);
      assert acc + (m + rest) == acc + m + rest;
      if |acc1| >= MaxResults {
        CapAppend(acc + m, rest);
        CapFull(acc1, rest);
      } else {
        WalkRootsIsCappedMatches(fs, roots, i + 1, q, acc1);
        CapAppend(acc + m, rest);
      }
    }
  }

  // ---------------------------------------------------------------------
  // What every match is.
  // ---------------------------------------------------------------------

  /** `p` is a path the walk from `dir` at `depth` may report: strictly below
      `dir`, at most 9 - `depth` levels down (no directory deeper than 8 is
      listed), named so that it contains the query, and with no noisy
      directory between `dir` and it. */
  predicate Found(dir: AbsPath, depth: nat, q: string, p: AbsPath)
  {
    p.device == dir.device && |dir.names| < |p.names| && p.names[..|dir.names|] == dir.names
    && depth + |p.names| - |dir.names| <= MaxDepth + 1
    && Hits(p.names[|p.names| - 1], q)
    && forall j :: |dir.names| <= j < |p.names| - 1 ==> !IsNoisy(p.names[j])
  }

  lemma FoundInChild(dir: AbsPath, name: string, depth: nat, q: string, p: AbsPath)
    requires !IsNoisy(name) && Found(Child(dir, name), depth + 1, q, p)
    ensures Found(dir, depth, q, p)
  {
    var c := Child(dir, name);
    assert p.names[..|dir.names|] == p.names[..|c.names|][..|dir.names|];
    assert c.names[..|dir.names|] == dir.names;
    assert p.names[|dir.names|] == c.names[|dir.names|] == name;
  }

  lemma {:induction false} MatchesAreFound(dir: AbsPath, l: Listing, depth: nat, q: string)
    ensures forall k :: 0 <= k < |Matches(dir, l, depth, q)| ==> Found(dir, depth, q, Matches(dir, l, depth, q)[k])
    decreases l, 1, 0
  {
    if depth <= MaxDepth && l.Readable? {
      MatchesFromAreFound(dir, l, 0, depth, q);
    }
  }

  lemma {:induction false} MatchesFromAreFound(dir: AbsPath, l: Listing, i: nat, depth: nat, q: string)
    requires l.Readable? && i <= |l.entries| && depth <= MaxDepth
    ensures forall k :: 0 <= k < |MatchesFrom(dir, l, i, depth, q)| ==> Found(dir, depth, q, MatchesFrom(dir, l, i, depth, q)[k])
    decreases l, 0, |l.entries| - i
  {
    if i < |l.entries| {
      var e := l.entries[i];
      var full := Child(dir, e.name);
      MatchesFromAreFound(dir, l, i + 1, depth, q);
      if !(e.Dir? && IsNoisy(e.name)) {
        var m := if Hits(e.name, q) then [full] else [];
        var sub := if e.Dir? then Matches(full, e.listing, depth + 1, q) else [];
        var rest := MatchesFrom(dir, l, i + 1, depth, q);
        assert MatchesFrom(dir, l, i, depth, q) == m + sub + rest;
        if Hits(e.name, q) {
          assert full.names[..|dir.names|] == dir.names;
          assert Found(dir, depth, q, full);
        }
        if e.Dir? {
          MatchesAreFound(full, e.listing, depth + 1, q);
          forall k | 0 <= k < |sub| ensures Found(dir, depth, q, sub[k]) {
            FoundInChild(dir, e.name, depth, q, sub[k]);
          }
        }
      }
    }
  }

  lemma {:induction false} AllMatchesAreFound(fs: map<AbsPath, Listing>, roots: seq<AbsPath>, i: nat, q: string)
    requires i <= |roots|
    ensures forall k :: 0 <= k < |AllMatches(fs, roots, i, q)| ==>
              exists r :: i <= r < |roots| && Found(roots[r], 0, q, AllMatches(fs, roots, i, q)[k])
    decreases |roots| - i
  {
    if i < |roots| {
      var m := Matches(roots[i], ListingOf(fs, roots[i]), 0, q);
      var rest := AllMatches(fs, roots, i + 1, q);
      assert AllMatches(fs, roots, i, q) == m + rest;
      MatchesAreFound(roots[i], ListingOf(fs, roots[i]), 0, q);
      AllMatchesAreFound(fs, roots, i + 1, q);
      var all := AllMatches(fs, roots, i, q);
      forall k | 0 <= k < |all|
        ensures exists r :: i <= r < |roots| && Found(roots[r], 0, q, all[k])
      {
        if k < |m| {
          assert all[k] == m[k];
          assert Found(roots[i], 0, q, all[k]);
        } else {
          assert all[k] == rest[k - |m|];
          var r :| i + 1 <= r < |roots| && Found(roots[r], 0, q, rest[k - |m|]);
          assert Found(roots[r], 0, q, all[k]);
        }
      }
      assert forall k :: 0 <= k < |all| ==> exists r :: i <= r < |roots| && Found(roots[r], 0, q, all[k]);
    } else {
      assert AllMatches(fs, roots, i, q) == [];
    }
  }

  /** What the loop over the roots yields. */
  lemma WalkRootsSound(fs: map<AbsPath, Listing>, roots: seq<AbsPath>, q: string)
    ensures var w := WalkRoots(fs, roots, 0, q, []);
            w == Cap(AllMatches(fs, roots, 0, q)) && |w| <= MaxResults
            && forall k :: 0 <= k < |w| ==> exists i :: 0 <= i < |roots| && Found(roots[i], 0, q, w[k])
  {
    var all := AllMatches(fs, roots, 0, q);
    WalkRootsIsCappedMatches(fs, roots, 0, q, []);
    assert [] + all == all;
    AllMatchesAreFound(fs, roots, 0, q);
    var w := Cap(all);
    forall k | 0 <= k < |w| ensures exists i :: 0 <= i < |roots| && Found(roots[i], 0, q, w[k]) {
      assert w[k] == all[k];
    }
  }

  /** The search theorem. A query that cannot be converted to text throws,
      and an empty query is refused; otherwise the result is
      the first 30 matches in depth-first order over the roots in turn, so
      there are never more than 30, and each lies strictly inside one of
      the roots, at most 9 levels below it, with a name containing the lower
      case query and no "node_modules" or ".git" directory on the way. */
  lemma SearchFilesSound(query: Option<Value>, fs: map<AbsPath, Listing>, roots: seq<AbsPath>)
    ensures var text := StrOrEmpty(query);
            var r := SearchFiles(query, fs, roots);
            (text.Err? ==> r == Err(CannotConvert))
            && (text.Ok? ==>
                  var q := Trim(Lower(text.value));
                  (r.Err? <==> q == "") && (r.Err? ==> r.msg == MissingQuery)
                  && (r.Ok? ==> r.value == Cap(AllMatches(fs, roots, 0, q))
                                && |r.value| <= MaxResults
                                && forall k :: 0 <= k < |r.value| ==>
                                     exists i :: 0 <= i < |roots| && Found(roots[i], 0, q, r.value[k])))
  {
    var text := StrOrEmpty(query);
    if text.Ok? {
      WalkRootsSound(fs, roots, Trim(Lower(text.value)));
    }
  }

  // ---------------------------------------------------------------------
  // The imperative walk: a shared `results` array that `walk` pushes to.
  // ---------------------------------------------------------------------

  class Searcher {
    const q: string
    var results: seq<AbsPath>

    constructor (q: string)
      ensures this.q == q && results == []
    {
      this.q := q;
      results := [];
    }

    /** `walk(dir, depth)` over the listing `l` of `dir`. */
    method WalkDir(dir: AbsPath, l: Listing, depth: nat)
      modifies this
      ensures results == Walk(dir, l, depth, q, old(results))
      decreases l
    {
      if depth > MaxDepth { return; }
      if |results| >= MaxResults { return; }
      if l.Unreadable? { return; }
      var i := 0;
      while i < |l.entries|
        invariant 0 <= i <= |l.entries|
        invariant WalkFrom(dir, l, i, depth, q, results) == Walk(dir, l, depth, q, old(results))
        decreases |l.entries| - i
      {
        if |results| >= MaxResults { return; }
        var e := l.entries[i];
        var full := Child(dir, e.name);
        var nameLower := Lower(e.name);
        if e.Dir? && (nameLower == "node_modules" || nameLower == ".git") {
          i := i + 1;
          continue;
        }
        if Contains(Lower(e.name), q) {
          results := results + [full];
          if |results| >= MaxResults { return; }
        }
        if e.Dir? {
          WalkDir(full, e.listing, depth + 1);
        }
        i := i + 1;
      }
    }
  }

  /** `searchFilesInRoots(query)` over the file system `fs`. */
  method SearchFilesInRoots(query: Option<Value>, fs: map<AbsPath, Listing>, roots: seq<AbsPath>)
    returns (r: Result<seq<AbsPath>>)
    ensures r == SearchFiles(query, fs, roots)
  {
    var text := StrOrEmpty(query);
    if text.Err? {
      return Err(text.msg);
    }
    var q := Trim(Lower(text.value));
    if q == "" {
      return Err(MissingQuery);
    }
    var s := new Searcher(q);
    var i := 0;
    while i < |roots|
      invariant 0 <= i <= |roots|
      invariant WalkRoots(fs, roots, i, q, s.results) == WalkRoots(fs, roots, 0, q, [])
      decreases |roots| - i
    {
      s.WalkDir(roots[i], ListingOf(fs, roots[i]), 0);
      if |s.results| >= MaxResults {
        break;
      }
      i := i + 1;
    }
    return Ok(s.results);
  }
}
