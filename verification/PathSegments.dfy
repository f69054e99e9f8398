/** Segment parsing in GetFile and ListDirectoryPath of download.go. */
module PathSegments {
  import opened Prelude

  /** strings.Trim(s, "/"). */
  function TrimLeft(s: string): string {
    if s != [] && s[0] == '/' then TrimLeft(s[1..]) else s
  }

  function TrimRight(s: string): string {
    if s != [] && s[|s| - 1] == '/' then TrimRight(s[..|s| - 1]) else s
  }

  function Trim(s: string): string {
    TrimRight(TrimLeft(s))
  }

  /** strings.Split(s, "/"): one more piece than there are slashes. */
  function Split(s: string): (pieces: seq<string>)
    ensures pieces != []
  {
    if s == [] then [""]
    else
      var rest := Split(s[1..]);
      if s[0] == '/' then [""] + rest else [[s[0]] + rest[0]] + rest[1..]
  }

  function NonEmpty(pieces: seq<string>): seq<string> {
    if pieces == [] then []
    else (if pieces[0] == "" then [] else [pieces[0]]) + NonEmpty(pieces[1..])
  }

  /** strings.Join(segments, "/"). */
  function Join(segments: seq<string>): string {
    if segments == [] then ""
    else if |segments| == 1 then segments[0]
    else segments[0] + "/" + Join(segments[1..])
  }

  /** The names a path is made of. */
  function Names(path: string): seq<string> {
    NonEmpty(Split(path))
  }

  /** The segments both operations pass on, None when they refuse the path. */
  function Accepted(path: string): Option<seq<string>> {
    if ".." in Names(path) then None else Some(Names(path))
  }

  /** The common part of GetFile and ListDirectoryPath.  An empty trimmed path is the root,
      which both hand on without segments. */
  method Segments(path: string) returns (r: Option<seq<string>>)
    ensures r == None <==> ".." in Names(path)
    ensures r.Some? ==> r.value == Names(path)
    ensures r == Accepted(path)
  {
    TrimKeepsNames(path);
    if Trim(path) == "" {
      assert Names("") == [];
      return Some([]);
    }
    var trimmedPath := Trim(path);
    var pathSegments := Split(trimmedPath);
    var segments: seq<string> := [];
    for i := 0 to |pathSegments|
      invariant segments == NonEmpty(pathSegments[..i]) && ".." !in segments
    {
      var seg := pathSegments[i];
      NonEmptyConcat(pathSegments[..i], [seg]);
      assert pathSegments[..i] + [seg] == pathSegments[..i + 1];
      if seg != "" {
        if seg == ".." {
          NonEmptyConcat(pathSegments[..i], pathSegments[i..]);
          assert pathSegments[..i] + pathSegments[i..] == pathSegments;
          assert NonEmpty(pathSegments[i..])[0] == "..";
          assert NonEmpty(pathSegments)[|segments|] == "..";
          return None;
        }
        segments := segments + [seg];
      }
    }
    assert pathSegments[..|pathSegments|] == pathSegments;
    r := Some(segments);
  }

  // ---------- Splitting at a slash ----------

  lemma {:induction false} NonEmptyConcat(a: seq<string>, b: seq<string>)
    ensures NonEmpty(a + b) == NonEmpty(a) + NonEmpty(b)
  {
    if a == [] {
      assert a + b == b;
    } else {
      NonEmptyConcat(a[1..], b);
      assert (a + b)[0] == a[0] && (a + b)[1..] == a[1..] + b;
      var head := if a[0] == "" then [] else [a[0]];
      assert head + NonEmpty(a[1..]) + NonEmpty(b) == head + (NonEmpty(a[1..]) + NonEmpty(b));
    }
  }

  lemma {:induction false} SplitAtSlash(a: string, b: string)
    ensures Split(a + "/" + b) == Split(a) + Split(b)
  {
    var s := a + "/" + b;
    if a == [] {
      assert s[0] == '/' && s[1..] == b;
    } else {
      SplitAtSlash(a[1..], b);
      assert s[0] == a[0] && s[1..] == a[1..] + "/" + b;
      var pieces := Split(a[1..]);
      assert (pieces + Split(b))[1..] == pieces[1..] + Split(b);
    }
  }

  /** A slash separates names and means nothing else: leading, trailing and doubled slashes
      are the cases where one side is empty or ends in a slash. */
  lemma NamesAtSlash(a: string, b: string)
    ensures Names(a + "/" + b) == Names(a) + Names(b)
  {
    SplitAtSlash(a, b);
    NonEmptyConcat(Split(a), Split(b));
  }

  lemma {:induction false} TrimKeepsNames(s: string)
    ensures Names(Trim(s)) == Names(s)
  {
    TrimLeftKeepsNames(s);
    TrimRightKeepsNames(TrimLeft(s));
  }

  lemma {:induction false} TrimLeftKeepsNames(s: string)
    ensures Names(TrimLeft(s)) == Names(s)
  {
    if s != [] && s[0] == '/' {
      TrimLeftKeepsNames(s[1..]);
      NamesAtSlash("", s[1..]);
      assert "" + "/" + s[1..] == s && Names("") == [];
    }
  }

  lemma {:induction false} TrimRightKeepsNames(s: string)
    ensures Names(TrimRight(s)) == Names(s)
  {
    if s != [] && s[|s| - 1] == '/' {
      var front := s[..|s| - 1];
      TrimRightKeepsNames(front);
      NamesAtSlash(front, "");
      assert front + "/" + "" == s && Names("") == [];
    }
  }

  /** Extra slashes at the front, at the end or in the middle never change the outcome. */
  lemma ExtraSlashes(a: string, b: string)
    ensures Accepted("/" + a) == Accepted(a) && Accepted(a + "/") == Accepted(a)
    ensures Accepted(a + "//" + b) == Accepted(a + "/" + b)
  {
    assert Names("") == [];
    assert [] + Names(a) == Names(a) == Names(a) + [] && [] + Names(b) == Names(b);
    NamesAtSlash("", a);
    assert "" + "/" + a == "/" + a;
    NamesAtSlash(a, "");
    assert a + "/" + "" == a + "/";
    NamesAtSlash(a, b);
    NamesAtSlash(a, "/" + b);
    NamesAtSlash("", b);
    assert "" + "/" + b == "/" + b && a + "/" + ("/" + b) == a + "//" + b;
  }

  // ---------- Round trip ----------

  predicate IsName(s: string) {
    s != "" && '/' !in s
  }

  lemma {:induction false} SplitName(s: string)
    requires '/' !in s
    ensures Split(s) == [s]
  {
    if s != [] {
      SplitName(s[1..]);
      assert [s[0]] + s[1..] == s;
    }
  }

  lemma {:induction false} NamesOfJoin(segments: seq<string>)
    requires forall i :: 0 <= i < |segments| ==> IsName(segments[i])
    ensures Names(Join(segments)) == segments
  {
    if segments == [] {
    } else {
      SplitName(segments[0]);
      assert NonEmpty([segments[0]]) == [segments[0]];
      if |segments| > 1 {
        NamesOfJoin(segments[1..]);
        NamesAtSlash(segments[0], Join(segments[1..]));
      } else {
        assert segments == [segments[0]];
      }
    }
  }

  lemma {:induction false} PiecesSlashFree(s: string)
    ensures forall i :: 0 <= i < |Split(s)| ==> '/' !in Split(s)[i]
  {
    if s != [] {
      PiecesSlashFree(s[1..]);
    }
  }

  lemma {:induction false} NonEmptyKeeps(pieces: seq<string>)
    requires forall i :: 0 <= i < |pieces| ==> '/' !in pieces[i]
    ensures forall i :: 0 <= i < |NonEmpty(pieces)| ==> IsName(NonEmpty(pieces)[i])
  {
    if pieces != [] {
      NonEmptyKeeps(pieces[1..]);
    }
  }

  /** Every accepted path yields proper names, none of them "..", and printing them with
      slashes and parsing again gives the same names back. */
  lemma AcceptedRoundTrip(path: string)
    requires Accepted(path).Some?
    ensures var names := Accepted(path).value;
            && (forall i :: 0 <= i < |names| ==> IsName(names[i]) && names[i] != "..")
            && Accepted(Join(names)) == Some(names)
  {
    PiecesSlashFree(path);
    NonEmptyKeeps(Split(path));
    NamesOfJoin(Names(path));
  }
}
