/** The path sandbox of the local agent: Windows `path.resolve` over a
    device and a list of names, the allowed roots, and `resolveAllowedPath`,
    which admits a resolved path only when its text equals a root or starts
    with a root followed by the separator. */
module Sandbox {
  import opened Text
  import opened Json

  const Sep: char := '\\'

  predicate IsSepChar(c: char) { c == '\\' || c == '/' }

  /** The device part of an absolute Windows path. */
  datatype Device = Drive(letter: string) | Unc(server: string, share: string)

  /** A resolved absolute path: a device and the names below it. */
  datatype AbsPath = AbsPath(device: Device, names: seq<string>)

  /** A text without separators. */
  predicate NoSeparator(w: string)
  {
    forall i :: 0 <= i < |w| ==> !IsSepChar(w[i])
  }

  /** Pieces none of which holds a separator. */
  predicate PlainPieces(ps: seq<string>)
  {
    forall k :: 0 <= k < |ps| ==> NoSeparator(ps[k])
  }

  predicate ValidName(n: string)
  {
    n != "" && n != "." && n != ".." && NoSeparator(n)
  }

  predicate ValidNames(ns: seq<string>)
  {
    forall k :: 0 <= k < |ns| ==> ValidName(ns[k])
  }

  predicate IsDriveSpec(d: string)
  {
    |d| == 2 && d[1] == ':' && (('A' <= d[0] <= 'Z') || ('a' <= d[0] <= 'z'))
  }

  /** What `path.resolve` produces: names that are plain path components,
      below a well-formed device. */
  predicate WellFormed(p: AbsPath)
  {
    ValidNames(p.names) &&
    match p.device
    case Drive(d) => IsDriveSpec(d)
    case Unc(s, sh) => s != "" && sh != ""
  }

  /** The text of a resolved path: "C:\\a\\b", "C:\\" for a drive root,
      "\\\\server\\share\\a" for a UNC path. */
  function Render(p: AbsPath): string
  {
    match p.device
    case Drive(d) => d + [Sep] + Join(p.names, Sep)
    case Unc(s, sh) => [Sep, Sep] + s + [Sep] + sh + [Sep] + Join(p.names, Sep)
  }

  // ---------------------------------------------------------------------
  // path.resolve
  // ---------------------------------------------------------------------

  /** The pieces of a raw path between separators ('\\' or '/'). */
  function Pieces(raw: string): (r: seq<string>)
    ensures |r| >= 1
    ensures PlainPieces(r)
  {
    if |raw| == 0 then [""]
    else
      var rest := Pieces(raw[1..]);
      if IsSepChar(raw[0]) then [""] + rest
      else [[raw[0]] + rest[0]] + rest[1..]
  }

  /** Collapse "." and ".." and empty pieces onto `acc`; ".." at the top of
      a device stays there. */
  function Normalize(acc: seq<string>, pieces: seq<string>): (r: seq<string>)
    requires ValidNames(acc)
    requires PlainPieces(pieces)
    ensures ValidNames(r)
    decreases |pieces|
  {
    if |pieces| == 0 then acc
    else
      var p := pieces[0];
      var acc' := if p == "" || p == "." then acc
                  else if p == ".." then (if |acc| == 0 then acc else acc[..|acc| - 1])
                  else acc + [p];
      Normalize(acc', pieces[1..])
  }

  function NonEmpty(pieces: seq<string>): (r: seq<string>)
    ensures forall k :: 0 <= k < |r| ==> r[k] in pieces && r[k] != ""
  {
    if |pieces| == 0 then []
    else if pieces[0] == "" then NonEmpty(pieces[1..])
    else [pieces[0]] + NonEmpty(pieces[1..])
  }

  /** `path.resolve(raw)` with `cwd` for `process.cwd()`:
      "X:\\..." is absolute on drive X; "\\\\server\\share\\..." is a UNC
      path, whose server name must follow the first two separators at once;
      any other text starting with a separator is rooted on the current
      device; "X:..." is relative to
      the current directory when X is its drive and to the root of X
      otherwise; anything else is relative to the current directory. */
  function Resolve(cwd: AbsPath, raw: string): (r: AbsPath)
    requires WellFormed(cwd)
    ensures WellFormed(r)
  {
    if |raw| >= 3 && IsDriveSpec(raw[..2]) && IsSepChar(raw[2]) then
      AbsPath(Drive(raw[..2]), Normalize([], Pieces(raw[3..])))
    else if |raw| >= 2 && IsDriveSpec(raw[..2]) then
      var base := if cwd.device.Drive? && Lower(cwd.device.letter) == Lower(raw[..2]) then cwd.names else [];
      AbsPath(Drive(raw[..2]), Normalize(base, Pieces(raw[2..])))
    else if |raw| >= 3 && IsSepChar(raw[0]) && IsSepChar(raw[1]) && !IsSepChar(raw[2]) && |NonEmpty(Pieces(raw))| >= 2 then
      var pcs := NonEmpty(Pieces(raw));
      AbsPath(Unc(pcs[0], pcs[1]), Normalize([], pcs[2..]))
    else if |raw| >= 1 && IsSepChar(raw[0]) then
      AbsPath(cwd.device, Normalize([], Pieces(raw)))
    else
      AbsPath(cwd.device, Normalize(cwd.names, Pieces(raw)))
  }

  // ---------------------------------------------------------------------
  // Allowed roots and resolveAllowedPath
  // ---------------------------------------------------------------------

  /** `full === root || full.startsWith(root + path.sep)` */
  predicate AdmitsText(root: string, full: string)
  {
    full == root || IsPrefix(root + [Sep], full)
  }

  predicate AnyRootAdmits(roots: seq<AbsPath>, full: AbsPath)
  {
    exists k | 0 <= k < |roots| :: AdmitsText(Render(roots[k]), Render(full))
  }

  /** `resolveAllowedPath(p)` */
  function ResolveAllowedPath(cwd: AbsPath, roots: seq<AbsPath>, p: Option<Value>): Result<AbsPath>
    requires WellFormed(cwd)
  {
    match StrOrEmpty(p)
    case Err(m) => Err(m)
    case Ok(raw) =>
      var full := Resolve(cwd, raw);
      if AnyRootAdmits(roots, full) then Ok(full) else Err("Path not allowed")
  }

  /** The structural reading of the text test: `root` names a drive and at
      least one folder, and `full` lies on that drive with the root's names
      as a leading run of its own. */
  predicate InsideRoot(root: AbsPath, full: AbsPath)
  {
    full.device == root.device && |root.names| <= |full.names| && full.names[..|root.names|] == root.names
  }

  predicate IsFolderRoot(root: AbsPath)
  {
    WellFormed(root) && root.device.Drive? && |root.names| >= 1
  }

  /** The sandbox theorem: a resolved path is accepted exactly when some
      root is a whole-component prefix of it. So a root "C:\\Projects"
      admits "C:\\Projects" and "C:\\Projects\\x" but never
      "C:\\Projects2\\x", and the check, made after resolution, sees no ".."
      left to climb out with. */
  lemma ResolveAllowedPathSound(cwd: AbsPath, roots: seq<AbsPath>, p: Option<Value>)
    requires WellFormed(cwd)
    requires forall k :: 0 <= k < |roots| ==> IsFolderRoot(roots[k])
    ensures var r := ResolveAllowedPath(cwd, roots, p);
            var raw := StrOrEmpty(p);
            (raw.Err? ==> r == Err(CannotConvert))
            && (raw.Ok? ==>
                  var full := Resolve(cwd, raw.value);
                  (r.Ok? <==> exists k :: 0 <= k < |roots| && InsideRoot(roots[k], full))
                  && (r.Ok? ==> r.value == full && WellFormed(full))
                  && (r.Err? ==> r.msg == "Path not allowed"))
  {
    var raw := StrOrEmpty(p);
    if raw.Err? {
      return;
    }
    var full := Resolve(cwd, raw.value);
    forall k | 0 <= k < |roots|
      ensures AdmitsText(Render(roots[k]), Render(full)) <==> InsideRoot(roots[k], full)
    {
      AdmitsIffInside(roots[k], full);
    }
  }

  lemma AdmitsIffInside(root: AbsPath, full: AbsPath)
    requires IsFolderRoot(root) && WellFormed(full)
    ensures AdmitsText(Render(root), Render(full)) <==> InsideRoot(root, full)
  {
    var d := root.device.letter;
    var rn := root.names;
    var an := full.names;
    match full.device
    case Unc(s, sh) =>
      var tf, tr := Render(full), Render(root);
      assert tf[0] == Sep && tr[0] == d[0] && d[0] != Sep;
      assert (tr + [Sep])[0] == tr[0];
      assert tf != tr;
      assert !IsPrefix(tr + [Sep], tf) by {
        if |tr| + 1 <= |tf| { assert tf[..|tr| + 1][0] == tf[0]; }
      }
    case Drive(e) =>
      var tr := Join(rn, Sep);
      var ta := Join(an, Sep);
      assert Render(root) == d + [Sep] + tr;
      assert Render(full) == e + [Sep] + ta;
      assert SepFree(d) && SepFree(e);
      JoinAdmitsIffPrefix(an, rn);
      StripCommon(d + [Sep], tr, ta);
      if AdmitsText(Render(root), Render(full)) {
        assert IsPrefix(d + [Sep], e + [Sep] + ta) by {
          assert (d + [Sep] + tr)[..|d| + 1] == d + [Sep];
          if Render(full) != Render(root) {
            assert (d + [Sep] + tr + [Sep])[..|d| + 1] == d + [Sep];
          }
        }
        FirstSeparator(d, e, ta);
      }
  }

  /** `p + q` and `p + s` compare as `q` and `s` do. */
  lemma StripCommon(p: string, q: string, s: string)
    ensures (p + q == p + s) <==> (q == s)
    ensures IsPrefix(p + q + [Sep], p + s) <==> IsPrefix(q + [Sep], s)
  {
    if p + q == p + s {
      assert q == (p + q)[|p|..];
      assert s == (p + s)[|p|..];
    }
    if IsPrefix(p + q + [Sep], p + s) {
      assert (p + s)[..|p| + |q| + 1] == p + q + [Sep];
      assert s[..|q| + 1] == (p + s)[..|p| + |q| + 1][|p|..];
      assert (p + q + [Sep])[|p|..] == q + [Sep];
    }
    if IsPrefix(q + [Sep], s) {
      assert (p + s)[..|p| + |q| + 1] == p + s[..|q| + 1];
      assert p + q + [Sep] == p + (q + [Sep]);
    }
  }

  predicate SepFree(u: string)
  {
    forall i :: 0 <= i < |u| ==> u[i] != Sep
  }

  /** `n` is the position of the first separator of `x`. */
  predicate FirstSepAt(x: string, n: int)
  {
    0 <= n < |x| && x[n] == Sep && forall i :: 0 <= i < n ==> x[i] != Sep
  }

  /** The first separator of `u + Sep + s` sits right after `u`. */
  lemma FirstSeparator(v: string, u: string, s: string)
    requires SepFree(u) && SepFree(v)
    requires IsPrefix(v + [Sep], u + [Sep] + s)
    ensures u == v
  {
    var x := u + [Sep] + s;
    assert FirstSepAt(x, |u|) by {
      forall i | 0 <= i < |u| ensures x[i] != Sep { assert x[i] == u[i]; }
    }
    assert FirstSepAt(x, |v|) by {
      forall i | 0 <= i < |v| ensures x[i] != Sep { assert x[i] == x[..|v| + 1][i] == v[i]; }
      assert x[|v|] == x[..|v| + 1][|v|] == Sep;
    }
    assert |u| == |v|;
    assert u == x[..|u|];
    assert v == x[..|v| + 1][..|v|];
  }

  lemma SepFreeNoPrefix(v: string, u: string)
    requires SepFree(u)
    ensures !IsPrefix(v + [Sep], u)
  {
    if |v| + 1 <= |u| {
      assert u[..|v| + 1][|v|] == u[|v|] != Sep;
    }
  }

  lemma ValidNameSepFree(n: string)
    requires ValidName(n)
    ensures SepFree(n)
  {
    forall i | 0 <= i < |n| ensures n[i] != Sep { assert !IsSepChar(n[i]); }
  }

  lemma JoinCons(ns: seq<string>)
    requires |ns| >= 2
    ensures Join(ns, Sep) == ns[0] + [Sep] + Join(ns[1..], Sep)
  {
  }

  /** The heart of the sandbox: over plain names, the text test "equal, or
      starts with root + separator" is the whole-component prefix test. */
  lemma {:induction false} JoinAdmitsIffPrefix(an: seq<string>, rn: seq<string>)
    requires ValidNames(an) && ValidNames(rn) && |rn| >= 1
    ensures (Join(an, Sep) == Join(rn, Sep) || IsPrefix(Join(rn, Sep) + [Sep], Join(an, Sep)))
            <==> (|rn| <= |an| && an[..|rn|] == rn)
    decreases |rn|
  {
    var x := rn[0];
    ValidNameSepFree(x);
    var ta := Join(an, Sep);
    var tr := Join(rn, Sep);
    if |an| >= 1 { ValidNameSepFree(an[0]); }
    if |rn| == 1 {
      assert tr == x;
      if |an| == 0 {
        assert ta == "";
      } else if |an| == 1 {
        assert ta == an[0];
        SepFreeNoPrefix(x, an[0]);
        assert an[..1] == [an[0]];
      } else {
        JoinCons(an);
        assert ta[|an[0]|] == Sep;
        assert ta != tr;
        if IsPrefix(tr + [Sep], ta) {
          FirstSeparator(x, an[0], Join(an[1..], Sep));
          assert an[..1] == [an[0]];
        }
        if an[..|rn|] == rn {
          assert an[0] == x;
          assert (x + [Sep] + Join(an[1..], Sep))[..|x| + 1] == x + [Sep];
        }
      }
    } else {
      JoinCons(rn);
      var tr' := Join(rn[1..], Sep);
      assert ValidNames(rn[1..]) by {
        forall k | 0 <= k < |rn| - 1 ensures ValidName(rn[1..][k]) { assert rn[1..][k] == rn[k + 1]; }
      }
      if |an| == 0 {
        assert ta == "";
        assert |tr| > 0;
      } else if |an| == 1 {
        assert ta == an[0];
        assert tr[|x|] == Sep;
        assert ta != tr;
        assert !IsPrefix(tr + [Sep], ta) by {
          if |tr| + 1 <= |ta| {
            assert ta[..|tr| + 1][|x|] == ta[|x|] != Sep;
            assert (tr + [Sep])[|x|] == Sep;
          }
        }
      } else {
        JoinCons(an);
        var ta' := Join(an[1..], Sep);
        assert ValidNames(an[1..]) by {
          forall k | 0 <= k < |an| - 1 ensures ValidName(an[1..][k]) { assert an[1..][k] == an[k + 1]; }
        }
        JoinAdmitsIffPrefix(an[1..], rn[1..]);
        if ta == tr || IsPrefix(tr + [Sep], ta) {
          assert IsPrefix(x + [Sep], ta) by {
            assert tr[..|x| + 1] == x + [Sep];
            if ta != tr {
              assert (tr + [Sep])[..|x| + 1] == x + [Sep];
              assert ta[..|tr| + 1][..|x| + 1] == ta[..|x| + 1];
            }
          }
          FirstSeparator(x, an[0], ta');
          StripCommon(x + [Sep], tr', ta');
          assert an[..|rn|] == [an[0]] + an[1..][..|rn| - 1];
          assert rn == [rn[0]] + rn[1..];
        }
        if |rn| <= |an| && an[..|rn|] == rn {
          assert an[0] == x;
          assert an[1..][..|rn| - 1] == rn[1..];
          StripCommon(x + [Sep], tr', ta');
        }
      }
    }
  }

  // ---------------------------------------------------------------------
  // The configured roots, and what the sandbox does with some paths.
  // ---------------------------------------------------------------------

  lemma {:induction false} PiecesAppend(x: string, y: string)
    ensures Pieces(x + "\\" + y) == Pieces(x) + Pieces(y)
  {
    if |x| == 0 {
      assert x + "\\" + y == [Sep] + y;
      PiecesCons(Sep, y);
    } else {
      PiecesAppend(x[1..], y);
      PiecesAppendStep(x[0], x[1..], y);
      assert x == [x[0]] + x[1..];
    }
  }

  /** The inductive step of `PiecesAppend`: one more character in front. */
  lemma PiecesAppendStep(c: char, x: string, y: string)
    requires Pieces(x + "\\" + y) == Pieces(x) + Pieces(y)
    ensures Pieces([c] + x + "\\" + y) == Pieces([c] + x) + Pieces(y)
  {
    var z := x + "\\" + y;
    assert [c] + x + "\\" + y == [c] + z;
    PiecesCons(c, z);
    PiecesCons(c, x);
    if IsSepChar(c) {
      ConsAssoc("", Pieces(x), Pieces(y));
    } else {
      HeadExtend([c], Pieces(x), Pieces(y));
    }
  }

  lemma ConsAssoc<T>(h: T, p: seq<T>, q: seq<T>)
    ensures [h] + (p + q) == ([h] + p) + q
  {
  }

  /** Extending the first piece of `p + q` extends the first piece of `p`. */
  lemma HeadExtend(w: string, p: seq<string>, q: seq<string>)
    requires |p| >= 1
    ensures [w + (p + q)[0]] + (p + q)[1..] == ([w + p[0]] + p[1..]) + q
  {
    assert (p + q)[0] == p[0];
    assert (p + q)[1..] == p[1..] + q;
  }

  /** One step of cutting a text into pieces. */
  lemma PiecesCons(c: char, s: string)
    ensures Pieces([c] + s) == if IsSepChar(c) then [""] + Pieces(s) else [[c] + Pieces(s)[0]] + Pieces(s)[1..]
  {
    assert ([c] + s)[0] == c && ([c] + s)[1..] == s;
  }

  /** A raw text without separators is a single piece. */
  lemma {:induction false} PiecesWord(w: string)
    requires NoSeparator(w)
    ensures Pieces(w) == [w]
  {
    if |w| > 0 {
      PiecesWord(w[1..]);
      assert [w[0]] + w[1..] == w;
    }
  }

  lemma {:induction false} NormalizeAppend(acc: seq<string>, ps: seq<string>, n: string)
    requires ValidNames(acc) && ValidName(n)
    requires PlainPieces(ps)
    ensures Normalize(acc, ps + [n]) == Normalize(acc, ps) + [n]
    decreases |ps|
  {
    if |ps| == 0 {
      assert Normalize(acc + [n], []) == acc + [n];
    } else {
      var p := ps[0];
      var acc' := if p == "" || p == "." then acc
                  else if p == ".." then (if |acc| == 0 then acc else acc[..|acc| - 1])
                  else acc + [p];
      assert (ps + [n])[1..] == ps[1..] + [n];
      NormalizeAppend(acc', ps[1..], n);
    }
  }

  /** `path.resolve("")` is the working directory. */
  lemma ResolveEmpty(cwd: AbsPath)
    requires WellFormed(cwd)
    ensures Resolve(cwd, "") == cwd
  {
    assert Pieces("") == [""];
    assert Normalize(cwd.names, [""]) == Normalize(cwd.names, []);
  }

  /** Resolution of a drive-absolute text. */
  lemma ResolveDriveAbsolute(cwd: AbsPath, raw: string)
    requires WellFormed(cwd)
    requires |raw| >= 3 && raw[..2] == "C:" && raw[2] == '\\'
    ensures Resolve(cwd, raw) == AbsPath(Drive("C:"), Normalize([], Pieces(raw[3..])))
  {
    assert IsDriveSpec(raw[..2]);
  }

  /** Joining separator-free pieces and cutting the text up again gives
      the pieces back. */
  lemma {:induction false} PiecesJoin(ps: seq<string>)
    requires |ps| >= 1 && PlainPieces(ps)
    ensures Pieces(Join(ps, Sep)) == ps
  {
    PiecesWord(ps[0]);
    if |ps| > 1 {
      var rest := ps[1..];
      PlainPiecesTail(ps);
      PiecesJoin(rest);
      JoinCons(ps);
      PiecesAppend(ps[0], Join(rest, Sep));
      assert ps == [ps[0]] + rest;
    }
  }

  lemma PlainPiecesTail(ps: seq<string>)
    requires |ps| >= 1 && PlainPieces(ps)
    ensures PlainPieces(ps[1..])
  {
    forall k | 0 <= k < |ps| - 1 ensures NoSeparator(ps[1..][k]) {
      assert ps[1..][k] == ps[k + 1];
    }
  }

  /** `path.resolve("C:\\" + ps.join("\\"))` */
  lemma DriveJoin(cwd: AbsPath, ps: seq<string>)
    requires WellFormed(cwd) && |ps| >= 1 && PlainPieces(ps)
    ensures Resolve(cwd, "C:\\" + Join(ps, Sep)) == AbsPath(Drive("C:"), Normalize([], ps))
  {
    var raw := "C:\\" + Join(ps, Sep);
    assert raw[..2] == "C:" && raw[2] == '\\' && raw[3..] == Join(ps, Sep);
    ResolveDriveAbsolute(cwd, raw);
    PiecesJoin(ps);
  }

  /** The verdict of the sandbox on a path with a single root. */
  lemma SingleRoot(cwd: AbsPath, root: AbsPath, raw: string, full: AbsPath)
    requires WellFormed(cwd) && IsFolderRoot(root) && Resolve(cwd, raw) == full
    ensures InsideRoot(root, full) ==> ResolveAllowedPath(cwd, [root], Some(Str(raw))) == Ok(full)
    ensures !InsideRoot(root, full) ==> ResolveAllowedPath(cwd, [root], Some(Str(raw))) == Err("Path not allowed")
  {
    ResolveAllowedPathSound(cwd, [root], Some(Str(raw)));
    assert [root][0] == root;
  }

  const ProjectsDir := AbsPath(Drive("C:"), ["Projects"])

  /** The facts about a concrete path text that `ResolvesTo` needs. */
  predicate SpellsOut(ps: seq<string>, raw: string, names: seq<string>)
  {
    |ps| >= 1 && PlainPieces(ps) && raw == "C:\\" + Join(ps, Sep)
    && ValidNames(names) && Normalize([], ps) == names
  }

  lemma ResolvesTo(cwd: AbsPath, ps: seq<string>, raw: string, names: seq<string>)
    requires WellFormed(cwd) && SpellsOut(ps, raw, names)
    ensures Resolve(cwd, raw) == AbsPath(Drive("C:"), names)
  {
    DriveJoin(cwd, ps);
  }

  /** A drive path of two plain names spells out those names. */
  lemma SpellsOutTwo(a: string, b: string)
    requires ValidName(a) && ValidName(b)
    ensures SpellsOut([a, b], "C:\\" + a + "\\" + b, [a, b])
  {
    var ps := [a, b];
    assert Join(ps, Sep) == a + "\\" + b;
    assert "C:\\" + a + "\\" + b == "C:\\" + (a + "\\" + b);
    assert ps[1..] == [b];
    assert PlainPieces(ps) by {
      forall k | 0 <= k < 2 ensures NoSeparator(ps[k]) {
        assert ValidName(ps[k]);
      }
    }
    assert [a] + [b] == [a, b];
    assert Normalize([a], [b]) == Normalize([a, b], []);
    assert [] + [a] == [a];
    assert Normalize([], ps) == Normalize([a], ps[1..]);
  }

  /** Three leading separators do not start a UNC path: the text is
      rooted on the working directory's device. */
  lemma TripleSeparatorRooted(cwd: AbsPath, ps: seq<string>)
    requires WellFormed(cwd) && |ps| >= 1 && PlainPieces(ps)
    ensures Resolve(cwd, "\\\\\\" + Join(ps, Sep)) == AbsPath(cwd.device, Normalize([], ps))
  {
    var raw := "\\\\\\" + Join(ps, Sep);
    assert !IsDriveSpec(raw[..2]) && IsSepChar(raw[0]) && IsSepChar(raw[2]);
    assert Resolve(cwd, raw) == AbsPath(cwd.device, Normalize([], Pieces(raw)));
    LeadingSeparators(Join(ps, Sep));
    PiecesJoin(ps);
  }

  /** Empty pieces from leading separators leave nothing to normalise. */
  lemma LeadingSeparators(j: string)
    requires PlainPieces(Pieces(j))
    ensures Normalize([], Pieces("\\\\\\" + j)) == Normalize([], Pieces(j))
  {
    var raw := "\\\\\\" + j;
    assert raw[1..] == "\\\\" + j && raw[1..][1..] == "\\" + j && raw[1..][1..][1..] == j;
    var p := Pieces(j);
    assert Pieces(raw[1..][1..]) == [""] + p;
    assert Pieces(raw[1..]) == [""] + ([""] + p);
    assert Pieces(raw) == [""] + ([""] + ([""] + p));
    assert Normalize([], [""] + ([""] + ([""] + p))) == Normalize([], [""] + ([""] + p));
    assert Normalize([], [""] + ([""] + p)) == Normalize([], [""] + p);
    assert Normalize([], [""] + p) == Normalize([], p);
  }

  /** So with the working directory on drive C, `\\\Projects\x` names
      "C:\Projects\x", which the root "C:\Projects" admits. */
  lemma TripleSeparatorAdmitted(cwd: AbsPath)
    requires WellFormed(cwd) && cwd.device == Drive("C:")
    ensures ResolveAllowedPath(cwd, [ProjectsDir], Some(Str("\\\\\\Projects\\x")))
            == Ok(AbsPath(Drive("C:"), ["Projects", "x"]))
  {
    TripleSeparatorProjects(cwd);
    ProjectsXInside();
    SingleRoot(cwd, ProjectsDir, "\\\\\\Projects\\x", AbsPath(Drive("C:"), ["Projects", "x"]));
  }

  lemma ProjectsXInside()
    ensures InsideRoot(ProjectsDir, AbsPath(Drive("C:"), ["Projects", "x"]))
  {
    assert ["Projects", "x"][..1] == ["Projects"];
  }

  lemma TripleSeparatorProjects(cwd: AbsPath)
    requires WellFormed(cwd) && cwd.device == Drive("C:")
    ensures Resolve(cwd, "\\\\\\Projects\\x") == AbsPath(Drive("C:"), ["Projects", "x"])
  {
    var ps := ["Projects", "x"];
    assert ValidName("Projects") && ValidName("x");
    SpellsOutTwo("Projects", "x");
    assert ps[1..] == ["x"];
    assert Join(ps, Sep) == "Projects" + [Sep] + "x";
    assert "\\\\\\" + ("Projects" + [Sep] + "x") == "\\\\\\Projects\\x";
    TripleSeparatorRooted(cwd, ps);
  }

  lemma SiblingText()
    ensures SpellsOut(["Projects2", "x"], "C:\\Projects2\\x", ["Projects2", "x"])
  {
    assert ValidName("Projects2") && ValidName("x");
    SpellsOutTwo("Projects2", "x");
    assert "C:\\" + "Projects2" + "\\" + "x" == "C:\\Projects2\\x";
  }

  /** A name, "..", and a name spell out the last name alone. */
  lemma SpellsOutClimb(a: string, c: string)
    requires ValidName(a) && ValidName(c)
    ensures SpellsOut([a, "..", c], "C:\\" + a + "\\..\\" + c, [c])
  {
    var ps := [a, "..", c];
    assert ps[1..] == ["..", c] && ps[1..][1..] == [c];
    assert Join([c], Sep) == c;
    assert Join(["..", c], Sep) == ".." + [Sep] + c;
    assert Join(ps, Sep) == a + [Sep] + (".." + [Sep] + c);
    assert a + [Sep] + (".." + [Sep] + c) == a + "\\..\\" + c;
    assert "C:\\" + a + "\\..\\" + c == "C:\\" + (a + "\\..\\" + c);
    assert PlainPieces(ps) by {
      forall k | 0 <= k < 3 ensures NoSeparator(ps[k]) {
        if k != 1 { assert ValidName(ps[k]); }
      }
    }
    assert [] + [a] == [a] && [a][..0] == [] && [] + [c] == [c];
    assert Normalize([], ps) == Normalize([a], ["..", c]);
    assert Normalize([a], ["..", c]) == Normalize([], [c]);
    assert Normalize([], [c]) == Normalize([c], []);
  }

  /** Two names, "..", and a name spell out the first and the last name. */
  lemma SpellsOutDetour(a: string, b: string, c: string)
    requires ValidName(a) && ValidName(b) && ValidName(c)
    ensures SpellsOut([a, b, "..", c], "C:\\" + a + "\\" + b + "\\..\\" + c, [a, c])
  {
    var ps := [a, b, "..", c];
    assert ps[1..] == [b, "..", c] && ps[1..][1..] == ["..", c] && ps[1..][1..][1..] == [c];
    assert Join([c], Sep) == c;
    assert Join(["..", c], Sep) == ".." + [Sep] + c;
    assert Join([b, "..", c], Sep) == b + [Sep] + (".." + [Sep] + c);
    assert Join(ps, Sep) == a + [Sep] + (b + [Sep] + (".." + [Sep] + c));
    assert a + [Sep] + (b + [Sep] + (".." + [Sep] + c)) == a + "\\" + b + "\\..\\" + c;
    assert "C:\\" + a + "\\" + b + "\\..\\" + c == "C:\\" + (a + "\\" + b + "\\..\\" + c);
    assert PlainPieces(ps) by {
      forall k | 0 <= k < 4 ensures NoSeparator(ps[k]) {
        if k != 2 { assert ValidName(ps[k]); }
      }
    }
    assert [] + [a] == [a] && ps[1..] == [b, "..", c];
    assert Normalize([], ps) == Normalize([a], [b, "..", c]);
    assert [b, "..", c][1..] == ["..", c] && [a] + [b] == [a, b];
    assert Normalize([a], [b, "..", c]) == Normalize([a, b], ["..", c]);
    assert [a, b][..1] == [a] && ["..", c][1..] == [c];
    assert Normalize([a, b], ["..", c]) == Normalize([a], [c]);
    assert [a] + [c] == [a, c];
    assert Normalize([a], [c]) == Normalize([a, c], []);
  }

  lemma ClimbOutText()
    ensures SpellsOut(["Projects", "..", "Windows"], "C:\\Projects\\..\\Windows", ["Windows"])
  {
    assert ValidName("Projects") && ValidName("Windows");
    SpellsOutClimb("Projects", "Windows");
    assert "C:\\" + "Projects" + "\\..\\" + "Windows" == "C:\\Projects\\..\\Windows";
  }

  lemma StayInsideText()
    ensures SpellsOut(["Projects", "a", "..", "b.txt"], "C:\\Projects\\a\\..\\b.txt", ["Projects", "b.txt"])
  {
    assert ValidName("Projects") && ValidName("a") && ValidName("b.txt");
    SpellsOutDetour("Projects", "a", "b.txt");
    assert "C:\\" + "Projects" + "\\" + "a" + "\\..\\" + "b.txt" == "C:\\Projects\\a\\..\\b.txt";
  }

  /** A sibling folder sharing the root's text as a prefix is refused. */
  lemma SiblingRefused(cwd: AbsPath)
    requires WellFormed(cwd)
    ensures ResolveAllowedPath(cwd, [ProjectsDir], Some(Str("C:\\Projects2\\x"))) == Err("Path not allowed")
  {
    var a := AbsPath(Drive("C:"), ["Projects2", "x"]);
    SiblingText();
    ResolvesTo(cwd, ["Projects2", "x"], "C:\\Projects2\\x", a.names);
    assert !InsideRoot(ProjectsDir, a) by { assert a.names[..1] == ["Projects2"]; }
    SingleRoot(cwd, ProjectsDir, "C:\\Projects2\\x", a);
  }

  /** ".." that climbs out of the root is refused: the check is made after
      resolution. */
  lemma ClimbOutRefused(cwd: AbsPath)
    requires WellFormed(cwd)
    ensures ResolveAllowedPath(cwd, [ProjectsDir], Some(Str("C:\\Projects\\..\\Windows"))) == Err("Path not allowed")
  {
    var w := AbsPath(Drive("C:"), ["Windows"]);
    ClimbOutText();
    ResolvesTo(cwd, ["Projects", "..", "Windows"], "C:\\Projects\\..\\Windows", w.names);
    assert !InsideRoot(ProjectsDir, w) by { assert w.names[..1] == ["Windows"]; }
    SingleRoot(cwd, ProjectsDir, "C:\\Projects\\..\\Windows", w);
  }

  /** ".." that stays inside the root is accepted, resolved. */
  lemma StayInsideAccepted(cwd: AbsPath)
    requires WellFormed(cwd)
    ensures ResolveAllowedPath(cwd, [ProjectsDir], Some(Str("C:\\Projects\\a\\..\\b.txt")))
            == Ok(AbsPath(Drive("C:"), ["Projects", "b.txt"]))
  {
    var b := AbsPath(Drive("C:"), ["Projects", "b.txt"]);
    StayInsideText();
    ResolvesTo(cwd, ["Projects", "a", "..", "b.txt"], "C:\\Projects\\a\\..\\b.txt", b.names);
    assert InsideRoot(ProjectsDir, b) by { assert b.names[..1] == ["Projects"]; }
    SingleRoot(cwd, ProjectsDir, "C:\\Projects\\a\\..\\b.txt", b);
  }
}
