/** The conditional-GET static file resolver of lib/static.js: header token
    lists, the If-Match / If-Unmodified-Since preconditions of RFC 7232, and
    the decision procedure of the `serveStatic` middleware. */
module Static {
  import opened Js
  import opened Koa

  const Space: char := ' '
  const Comma: char := ','

  // ---------------------------------------------------------------------
  // Comma-separated token lists
  // ---------------------------------------------------------------------

  /** The pieces of `s` between commas, spaces included: a reference split. */
  function Segments(s: string): (r: seq<string>)
    ensures |r| >= 1
  {
    if |s| == 0 then [""]
    else
      var init := Segments(s[..|s| - 1]);
      if s[|s| - 1] == Comma then init + [""]
      else init[..|init| - 1] + [init[|init| - 1] + [s[|s| - 1]]]
  }

  /** Pieces glued back together with a comma between neighbours. */
  function JoinCommas(pieces: seq<string>): string
    requires |pieces| >= 1
  {
    if |pieces| == 1 then pieces[0]
    else JoinCommas(pieces[..|pieces| - 1]) + [Comma] + pieces[|pieces| - 1]
  }

  function CountCommas(s: string): nat
  {
    if |s| == 0 then 0
    else CountCommas(s[..|s| - 1]) + (if s[|s| - 1] == Comma then 1 else 0)
  }

  /** Splitting at commas gives one piece more than there are commas, no
      piece holds a comma, and the pieces joined back give the input. */
  lemma {:induction false} SegmentsSplitAtCommas(s: string)
    ensures |Segments(s)| == CountCommas(s) + 1
    ensures forall k :: 0 <= k < |Segments(s)| ==> Comma !in Segments(s)[k]
    ensures JoinCommas(Segments(s)) == s
  {
    if |s| > 0 {
      var p, c := s[..|s| - 1], s[|s| - 1];
      assert s == p + [c];
      SegmentsSplitAtCommas(p);
      var init := Segments(p);
      if c != Comma {
        var last := init[|init| - 1] + [c];
        assert Segments(s) == init[..|init| - 1] + [last];
        forall k | 0 <= k < |Segments(s)| ensures Comma !in Segments(s)[k] {
          if k < |init| - 1 {
            assert Segments(s)[k] == init[k];
          } else {
            assert Comma !in init[|init| - 1];
          }
        }
        if |init| > 1 {
          assert Segments(s)[..|Segments(s)| - 1] == init[..|init| - 1];
          assert JoinCommas(init) == JoinCommas(init[..|init| - 1]) + [Comma] + init[|init| - 1];
        }
      } else {
        assert Segments(s)[..|Segments(s)| - 1] == init;
      }
    }
  }

  /** A string without commas is a single piece. */
  lemma {:induction false} SegmentsOfCommaFree(y: string)
    requires Comma !in y
    ensures Segments(y) == [y]
  {
    if |y| > 0 {
      assert Comma !in y[..|y| - 1];
      SegmentsOfCommaFree(y[..|y| - 1]);
      assert y[..|y| - 1] + [y[|y| - 1]] == y;
    }
  }

  /** A comma followed by a comma-free tail adds exactly that tail as a piece. */
  lemma {:induction false} SegmentsAfterComma(x: string, y: string)
    requires Comma !in y
    ensures Segments(x + [Comma] + y) == Segments(x) + [y]
  {
    if |y| == 0 {
      assert (x + [Comma] + y)[..|x|] == x;
    } else {
      var y', c := y[..|y| - 1], y[|y| - 1];
      assert Comma !in y';
      SegmentsAfterComma(x, y');
      assert (x + [Comma] + y)[..|x + [Comma] + y| - 1] == x + [Comma] + y';
      assert y' + [c] == y;
    }
  }

  /** The converse round trip: splitting comma-free pieces joined with commas
      gives the pieces back. */
  lemma {:induction false} SegmentsOfJoin(pieces: seq<string>)
    requires |pieces| >= 1
    requires forall k :: 0 <= k < |pieces| ==> Comma !in pieces[k]
    ensures Segments(JoinCommas(pieces)) == pieces
  {
    if |pieces| == 1 {
      SegmentsOfCommaFree(pieces[0]);
    } else {
      var init, last := pieces[..|pieces| - 1], pieces[|pieces| - 1];
      assert forall k :: 0 <= k < |init| ==> init[k] == pieces[k];
      SegmentsOfJoin(init);
      assert JoinCommas(pieces) == JoinCommas(init) + [Comma] + last;
      assert Comma !in last;
      SegmentsAfterComma(JoinCommas(init), last);
      assert init + [last] == pieces;
    }
  }

  /** `s` without its leading spaces. */
  function TrimStart(s: string): (r: string)
    ensures |r| <= |s|
  {
    if |s| > 0 && s[0] == Space then TrimStart(s[1..]) else s
  }

  /** `s` without its trailing spaces. */
  function TrimEnd(s: string): (r: string)
    ensures |r| <= |s|
  {
    if |s| > 0 && s[|s| - 1] == Space then TrimEnd(s[..|s| - 1]) else s
  }

  /** `s` without leading and trailing spaces (0x20 only). */
  function Trim(s: string): string
  {
    TrimEnd(TrimStart(s))
  }

  function Spaces(n: nat): (r: string)
    ensures |r| == n && forall i :: 0 <= i < n ==> r[i] == Space
  {
    seq(n, _ => Space)
  }

  lemma {:induction false} TrimStartShape(s: string)
    ensures TrimStart(s) == [] || TrimStart(s)[0] != Space
    ensures s == Spaces(|s| - |TrimStart(s)|) + TrimStart(s)
  {
    if |s| > 0 && s[0] == Space {
      TrimStartShape(s[1..]);
      assert s == [Space] + s[1..];
      assert Spaces(|s| - |TrimStart(s)|) == [Space] + Spaces(|s[1..]| - |TrimStart(s[1..])|);
    } else {
      assert Spaces(0) == [];
    }
  }

  lemma {:induction false} TrimEndShape(s: string)
    ensures TrimEnd(s) == [] || TrimEnd(s)[|TrimEnd(s)| - 1] != Space
    ensures s == TrimEnd(s) + Spaces(|s| - |TrimEnd(s)|)
  {
    if |s| > 0 && s[|s| - 1] == Space {
      var p := s[..|s| - 1];
      TrimEndShape(p);
      assert s == p + [Space];
      assert Spaces(|s| - |TrimEnd(s)|) == Spaces(|p| - |TrimEnd(p)|) + [Space];
    } else {
      assert Spaces(0) == [];
    }
  }

  /** A trimmed piece is the piece less some leading and some trailing spaces:
      it neither starts nor ends with a space, and what lies between is kept
      in order. */
  lemma TrimShape(s: string)
    ensures Trim(s) == [] || (Trim(s)[0] != Space && Trim(s)[|Trim(s)| - 1] != Space)
    ensures exists a: nat, b: nat :: s == Spaces(a) + Trim(s) + Spaces(b)
  {
    var t := TrimStart(s);
    TrimStartShape(s);
    TrimEndShape(t);
    var a, b := |s| - |t|, |t| - |TrimEnd(t)|;
    assert s == Spaces(a) + Trim(s) + Spaces(b);
    if Trim(s) != [] {
      assert Trim(s)[0] == t[0];
    }
  }

  /** Every piece trimmed. */
  function TrimAll(pieces: seq<string>): (r: seq<string>)
    ensures |r| == |pieces|
  {
    seq(|pieces|, k requires 0 <= k < |pieces| => Trim(pieces[k]))
  }

  /** Trimming the pieces one at a time from the front. */
  lemma TrimAllSplit(pieces: seq<string>)
    requires |pieces| >= 1
    ensures TrimAll(pieces) == TrimAll(pieces[..|pieces| - 1]) + [Trim(pieces[|pieces| - 1])]
  {
  }

  /** What `parseTokenList` returns: the comma-separated pieces, trimmed. */
  function Tokens(s: string): seq<string>
  {
    TrimAll(Segments(s))
  }

  /** The token of a comma-free piece: comma-free, no edge spaces, and the
      piece less leading and trailing spaces. */
  lemma TokenOfPiece(seg: string)
    requires Comma !in seg
    ensures Comma !in Trim(seg)
    ensures Trim(seg) == [] || (Trim(seg)[0] != Space && Trim(seg)[|Trim(seg)| - 1] != Space)
    ensures exists a: nat, b: nat :: seg == Spaces(a) + Trim(seg) + Spaces(b)
  {
    TrimShape(seg);
    var a: nat, b: nat :| seg == Spaces(a) + Trim(seg) + Spaces(b);
    forall i | 0 <= i < |Trim(seg)| ensures Trim(seg)[i] != Comma {
      assert Trim(seg)[i] == seg[a + i];
    }
  }

  /** The token list has one token more than the input has commas; no token
      contains a comma or starts or ends with a space; the empty string gives
      `[""]`. (Each token is its piece less edge spaces by `TokenOfPiece`.) */
  lemma TokensShape(s: string)
    ensures |Tokens(s)| == CountCommas(s) + 1
    ensures forall t :: t in Tokens(s) ==> Comma !in t
    ensures forall t :: t in Tokens(s) ==> t == [] || (t[0] != Space && t[|t| - 1] != Space)
    ensures s == "" ==> Tokens(s) == [""]
  {
    SegmentsSplitAtCommas(s);
    forall t | t in Tokens(s) ensures Comma !in t && (t == [] || (t[0] != Space && t[|t| - 1] != Space)) {
      TokenIn(s, t);
    }
  }

  lemma TokenIn(s: string, t: string)
    requires t in Tokens(s)
    ensures Comma !in t
    ensures t == [] || (t[0] != Space && t[|t| - 1] != Space)
  {
    var segs := Segments(s);
    var k :| 0 <= k < |Tokens(s)| && Tokens(s)[k] == t;
    SegmentsSplitAtCommas(s);
    assert Comma !in segs[k];
    assert t == Trim(segs[k]);
    TokenOfPiece(segs[k]);
  }

  /** Tokens of a header written as comma-joined entries are the trimmed entries. */
  lemma TokensOfJoin(entries: seq<string>)
    requires |entries| >= 1
    requires forall k :: 0 <= k < |entries| ==> Comma !in entries[k]
    ensures Tokens(JoinCommas(entries)) == TrimAll(entries)
  {
    SegmentsOfJoin(entries);
  }

  lemma {:induction false} TrimStartSnoc(s: string, c: char)
    ensures TrimStart(s + [c]) == if TrimStart(s) == [] && c == Space then [] else TrimStart(s) + [c]
  {
    if |s| > 0 && s[0] == Space {
      assert (s + [c])[1..] == s[1..] + [c];
      TrimStartSnoc(s[1..], c);
    }
  }

  /** What the scan of `parseTokenList` has produced after reading `str[..i]`:
      the tokens of the finished pieces, the current piece trimmed, and the
      current piece without its leading spaces. */
  ghost function ScanView(str: string, i: nat): (seq<string>, string, string)
    requires i <= |str|
  {
    var segs := Segments(str[..i]);
    (TrimAll(segs[..|segs| - 1]), Trim(segs[|segs| - 1]), TrimStart(segs[|segs| - 1]))
  }

  /** The scan's variables after reading `str[..i]`: `list` holds the tokens
      of the finished pieces, `str[start..end]` is the current piece trimmed
      and `str[start..i]` is it without its leading spaces. */
  ghost predicate ScanState(str: string, i: nat, list: seq<string>, start: nat, end: nat)
  {
    && start <= end <= i <= |str|
    && (start == end ==> start == i)
    && ScanView(str, i) == (list, str[start..end], str[start..i])
  }

  /** Reading one more character: a comma opens a new piece, any other
      character extends the current one. */
  lemma SegmentsStep(str: string, i: nat)
    requires i < |str|
    ensures var segs, segs' := Segments(str[..i]), Segments(str[..i + 1]);
      if str[i] == Comma then segs' == segs + [""]
      else segs' == segs[..|segs| - 1] + [segs[|segs| - 1] + [str[i]]]
  {
    assert str[..i + 1][..i] == str[..i];
  }

  /** Extending a slice by one character. */
  lemma SliceSnoc(str: string, a: nat, b: nat)
    requires a <= b < |str|
    ensures str[a..b + 1] == str[a..b] + [str[b]]
  {
  }

  /** A trailing space changes neither the trimmed piece nor, once a token
      has started, anything but the piece without leading spaces. */
  lemma TrimSnocSpace(seg: string)
    ensures Trim(seg + [Space]) == Trim(seg)
    ensures TrimStart(seg + [Space]) == if TrimStart(seg) == [] then [] else TrimStart(seg) + [Space]
  {
    TrimStartSnoc(seg, Space);
    assert (TrimStart(seg) + [Space])[..|TrimStart(seg)|] == TrimStart(seg);
  }

  /** A space before the current token has started moves the start past it. */
  lemma ScanLeadingSpace(str: string, i: nat, list: seq<string>, start: nat, end: nat)
    requires ScanState(str, i, list, start, end) && i < |str| && str[i] == Space && start == end
    ensures ScanState(str, i + 1, list, i + 1, i + 1)
  {
    var segs := Segments(str[..i]);
    var seg := segs[|segs| - 1];
    assert list == TrimAll(segs[..|segs| - 1]) && str[start..i] == TrimStart(seg) && TrimStart(seg) == [];
    SegmentsStep(str, i);
    var segs' := Segments(str[..i + 1]);
    assert segs'[..|segs'| - 1] == segs[..|segs| - 1] && segs'[|segs'| - 1] == seg + [Space];
    TrimSnocSpace(seg);
    assert Trim(seg) == TrimEnd([]) == [];
    assert str[i + 1..i + 1] == [];
    assert ScanView(str, i + 1) == (list, str[i + 1..i + 1], str[i + 1..i + 1]);
  }

  /** A space after the current token has started is not part of it (yet). */
  lemma ScanTrailingSpace(str: string, i: nat, list: seq<string>, start: nat, end: nat)
    requires ScanState(str, i, list, start, end) && i < |str| && str[i] == Space && start != end
    ensures ScanState(str, i + 1, list, start, end)
  {
    var segs := Segments(str[..i]);
    var seg := segs[|segs| - 1];
    assert list == TrimAll(segs[..|segs| - 1]) && str[start..end] == Trim(seg) && str[start..i] == TrimStart(seg);
    assert TrimStart(seg) != [];
    SegmentsStep(str, i);
    var segs' := Segments(str[..i + 1]);
    assert segs'[..|segs'| - 1] == segs[..|segs| - 1] && segs'[|segs'| - 1] == seg + [Space];
    TrimSnocSpace(seg);
    SliceSnoc(str, start, i);
    assert ScanView(str, i + 1) == (list, str[start..end], str[start..i + 1]);
  }

  lemma ScanComma(str: string, i: nat, list: seq<string>, start: nat, end: nat)
    requires ScanState(str, i, list, start, end) && i < |str| && str[i] == Comma
    ensures ScanState(str, i + 1, list + [str[start..end]], i + 1, i + 1)
  {
    var segs := Segments(str[..i]);
    assert list == TrimAll(segs[..|segs| - 1]) && str[start..end] == Trim(segs[|segs| - 1]);
    SegmentsStep(str, i);
    var segs' := Segments(str[..i + 1]);
    assert segs'[..|segs'| - 1] == segs;
    TrimAllSplit(segs);
    assert segs'[|segs'| - 1] == "" && TrimStart("") == "" && Trim("") == "" && str[i + 1..i + 1] == "";
    assert ScanView(str, i + 1) == (list + [str[start..end]], str[i + 1..i + 1], str[i + 1..i + 1]);
  }

  lemma ScanOther(str: string, i: nat, list: seq<string>, start: nat, end: nat)
    requires ScanState(str, i, list, start, end) && i < |str| && str[i] != Space && str[i] != Comma
    ensures ScanState(str, i + 1, list, start, i + 1)
  {
    var segs := Segments(str[..i]);
    var seg := segs[|segs| - 1];
    var c := str[i];
    assert list == TrimAll(segs[..|segs| - 1]) && str[start..i] == TrimStart(seg);
    SegmentsStep(str, i);
    var segs' := Segments(str[..i + 1]);
    assert segs'[..|segs'| - 1] == segs[..|segs| - 1] && segs'[|segs'| - 1] == seg + [c];
    TrimStartSnoc(seg, c);
    SliceSnoc(str, start, i);
    assert TrimStart(seg + [c]) == str[start..i + 1];
    assert TrimEnd(str[start..i + 1]) == str[start..i + 1];
    assert ScanView(str, i + 1) == (list, str[start..i + 1], str[start..i + 1]);
  }

  lemma ScanDone(str: string, list: seq<string>, start: nat, end: nat)
    requires ScanState(str, |str|, list, start, end)
    ensures list + [str[start..end]] == Tokens(str)
  {
    assert str[..|str|] == str;
    var segs := Segments(str);
    assert list == TrimAll(segs[..|segs| - 1]) && str[start..end] == Trim(segs[|segs| - 1]);
    TrimAllSplit(segs);
  }

  /** One character of the scan: the body of the `switch` in `parseTokenList`. */
  method ScanChar(str: string, i: nat, list: seq<string>, start: nat, end: nat)
    returns (list': seq<string>, start': nat, end': nat)
    requires i < |str| && ScanState(str, i, list, start, end)
    ensures ScanState(str, i + 1, list', start', end')
  {
    list', start', end' := list, start, end;
    if str[i] == Space {
      if start == end {
        ScanLeadingSpace(str, i, list, start, end);
        start', end' := i + 1, i + 1;
      } else {
        ScanTrailingSpace(str, i, list, start, end);
      }
    } else if str[i] == Comma {
      ScanComma(str, i, list, start, end);
      list' := list + [str[start..end]];
      start', end' := i + 1, i + 1;
    } else {
      ScanOther(str, i, list, start, end);
      end' := i + 1;
    }
  }

  /** `parseTokenList(str)` (lib/static.js:20-47): one pass that keeps the
      start and end of the current token, skipping spaces before a token
      and not extending the end over spaces after it. */
  method ParseTokenList(str: string) returns (list: seq<string>)
    ensures list == Tokens(str)
  {
    var end: nat := 0;
    list := [];
    var start: nat := 0;
    var i: nat := 0;
    while i < |str|
      invariant i <= |str|
      invariant ScanState(str, i, list, start, end)
    {
      list, start, end := ScanChar(str, i, list, start, end);
      i := i + 1;
    }
    ScanDone(str, list, start, end);
    list := list + [str[start..end]];
  }

  // ---------------------------------------------------------------------
  // Preconditions (RFC 7232)
  // ---------------------------------------------------------------------

  /** `Date.parse`, abstracted: the timestamp in milliseconds, or None for NaN. */
  type DateParser = string -> Option<int>

  /** `isConditionalGET(ctx)`: any of the four conditional headers is truthy. */
  predicate IsConditionalGet(h: Headers)
  {
    || Truthy(Header(h, "if-match"))
    || Truthy(Header(h, "if-unmodified-since"))
    || Truthy(Header(h, "if-none-match"))
    || Truthy(Header(h, "if-modified-since"))
  }

  /** `parseHttpDate(date)`: a falsy header is NaN, otherwise `Date.parse`. */
  function ParseHttpDate(parseDate: DateParser, date: Option<string>): Option<int>
  {
    if Truthy(date) then parseDate(date.value) else None
  }

  /** The callback of `every` in `isPreconditionFailure`: the token names
      neither the entity tag, nor its weak form, nor is it the strong form of a
      weak entity tag. */
  predicate Unmatched(token: string, etag: string)
  {
    token != etag && token != "W/" + etag && "W/" + token != etag
  }

  /** `isPreconditionFailure(ctx, etag, lastModified)` (lib/static.js:64-80):
      If-Match, when present, decides alone (section 6 of RFC 7232 orders it
      before If-Unmodified-Since); otherwise If-Unmodified-Since fails when the
      file changed after the given time. */
  predicate IsPreconditionFailure(h: Headers, etag: Option<string>, lastModified: int, parseDate: DateParser)
  {
    var ifMatch := Header(h, "if-match");
    if Truthy(ifMatch) then
      !Truthy(etag) || (ifMatch.value != "*" && forall t :: t in Tokens(ifMatch.value) ==> Unmatched(t, etag.value))
    else
      match ParseHttpDate(parseDate, Header(h, "if-unmodified-since"))
      case Some(since) => lastModified > since
      case None => false
  }

  /** With If-Match present the outcome depends on If-Match and the entity tag
      only: the other headers, the modification time and the date parser are
      never consulted. A missing entity tag fails even for `*`; otherwise `*`
      never fails. */
  lemma IfMatchDecidesAlone(h: Headers, h': Headers, etag: Option<string>,
                            lm: int, lm': int, pd: DateParser, pd': DateParser)
    requires Truthy(Header(h, "if-match")) && Header(h', "if-match") == Header(h, "if-match")
    ensures IsPreconditionFailure(h, etag, lm, pd) == IsPreconditionFailure(h', etag, lm', pd')
    ensures !Truthy(etag) ==> IsPreconditionFailure(h, etag, lm, pd)
    ensures Truthy(etag) && h["if-match"] == "*" ==> !IsPreconditionFailure(h, etag, lm, pd)
  {
  }

  /** A client that lists the current entity tag among comma-separated entries
      (with any spaces around it, strong or weak) passes If-Match. */
  lemma IfMatchListedPasses(h: Headers, etag: string, entries: seq<string>, k: nat, lm: int, pd: DateParser)
    requires |entries| >= 1 && k < |entries|
    requires forall j :: 0 <= j < |entries| ==> Comma !in entries[j]
    requires Header(h, "if-match") == Some(JoinCommas(entries)) && JoinCommas(entries) != ""
    requires etag != ""
    requires !Unmatched(Trim(entries[k]), etag)
    ensures !IsPreconditionFailure(h, Some(etag), lm, pd)
  {
    var header := JoinCommas(entries);
    TokensOfJoin(entries);
    var t := TrimAll(entries)[k];
    assert t in Tokens(header);
    assert !(forall u :: u in Tokens(header) ==> Unmatched(u, etag));
  }

  /** A client whose If-Match entries (other than a lone `*`) all name other
      entity tags fails the precondition. */
  lemma IfMatchUnlistedFails(h: Headers, etag: string, entries: seq<string>, lm: int, pd: DateParser)
    requires |entries| >= 1
    requires forall j :: 0 <= j < |entries| ==> Comma !in entries[j]
    requires Header(h, "if-match") == Some(JoinCommas(entries)) && JoinCommas(entries) !in {"", "*"}
    requires etag != ""
    requires forall j :: 0 <= j < |entries| ==> Unmatched(Trim(entries[j]), etag)
    ensures IsPreconditionFailure(h, Some(etag), lm, pd)
  {
    TokensOfJoin(entries);
    forall t | t in Tokens(JoinCommas(entries)) ensures Unmatched(t, etag) {
      var j :| 0 <= j < |entries| && TrimAll(entries)[j] == t;
    }
  }

  /** Without If-Match, the request fails exactly when If-Unmodified-Since
      parses to a time and the file was modified strictly later; a request
      with no conditional header at all never fails. */
  lemma UnmodifiedSinceRule(h: Headers, etag: Option<string>, lm: int, pd: DateParser)
    requires !Truthy(Header(h, "if-match"))
    ensures IsPreconditionFailure(h, etag, lm, pd) <==>
      (Truthy(Header(h, "if-unmodified-since"))
       && pd(h["if-unmodified-since"]).Some? && lm > pd(h["if-unmodified-since"]).value)
    ensures !IsConditionalGet(h) ==> !IsPreconditionFailure(h, etag, lm, pd)
  {
  }

  // ---------------------------------------------------------------------
  // The serveStatic middleware
  // ---------------------------------------------------------------------

  /** What `fs.stat` reports about a file that exists. */
  datatype Stats = Stats(size: nat, mtime: int)

  /** `opt.etag` and `opt.gzip`: only the value `false` switches a feature off. */
  datatype StaticOptions = StaticOptions(etag: Option<bool>, gzip: Option<bool>)

  /** `serveStatic(virtualPath, root, opt, ...middlewares)`; the post-middlewares
      are named by number. */
  datatype Mount = Mount(virtualPath: string, root: string, opt: StaticOptions, middlewares: seq<nat>)

  /** The request as the middleware sees it. */
  datatype Request = Request(httpMethod: string, path: string, headers: Headers, acceptsGzip: bool)

  /** The collaborators the middleware calls: `fs.stat` (None when the file is
      missing), whether a post-middleware rejects on this request (its body is
      not modelled), the `etag` and `fresh` packages, `Date.parse`, and Node's
      `path.join`, `path.basename` and `path.dirname`. */
  datatype FileEnv = FileEnv(
    stat: string -> Option<Stats>,
    rejects: nat -> bool,
    etagOf: Stats -> string,
    isFresh: (Headers, Option<string>, int) -> bool,
    parseDate: DateParser,
    join: (string, string) -> string,
    basename: string -> string,
    dirname: string -> string)

  /** What the middleware does, in order. */
  datatype Step =
    | Stat(file: string)              // awaits `stat(file)`
    | Reject(status: int)             // `ctx.throw(status)`
    | Respond(status: int)            // `ctx.status = status` and return
    | RunMiddleware(handler: nat)     // awaits a post-middleware with a no-op next
    | Rethrow                         // that post-middleware rejected: the error leaves the middleware
    | SetEtag(etag: Option<string>)   // `ctx.response.etag = etag`
    | Send(file: string, root: string, opt: StaticOptions) // `send(ctx, file, {...opt, root})`
    | Next                            // `await next()`

  predicate EtagEnabled(opt: StaticOptions) { opt.etag != Some(false) }
  predicate GzipEnabled(opt: StaticOptions) { opt.gzip != Some(false) }

  /** HEAD or GET, on a path that starts with the mount point. */
  predicate Qualifies(m: Mount, req: Request)
  {
    && (req.httpMethod == "HEAD" || req.httpMethod == "GET")
    && |m.virtualPath| <= |req.path| && req.path[..|m.virtualPath|] == m.virtualPath
  }

  function Subpath(m: Mount, req: Request): string
    requires Qualifies(m, req)
  {
    req.path[|m.virtualPath|..]
  }

  function FullPath(m: Mount, req: Request, env: FileEnv): string
    requires Qualifies(m, req)
  {
    env.join(m.root, Subpath(m, req))
  }

  /** The compressed sibling is probed when gzip is on and the client prefers it. */
  predicate ProbesGzip(m: Mount, req: Request)
  {
    GzipEnabled(m.opt) && req.acceptsGzip
  }

  /** The stat probes, in order: the `.gz` sibling first when probed, the plain
      file only when no sibling was found. */
  function Probes(m: Mount, req: Request, env: FileEnv): seq<Step>
    requires Qualifies(m, req)
  {
    var full := FullPath(m, req, env);
    if ProbesGzip(m, req) && env.stat(full + ".gz").Some? then [Stat(full + ".gz")]
    else if ProbesGzip(m, req) then [Stat(full + ".gz"), Stat(full)]
    else [Stat(full)]
  }

  /** The stats the probes found, if any. */
  function Found(m: Mount, req: Request, env: FileEnv): Option<Stats>
    requires Qualifies(m, req)
  {
    var full := FullPath(m, req, env);
    if ProbesGzip(m, req) && env.stat(full + ".gz").Some? then env.stat(full + ".gz")
    else env.stat(full)
  }

  function EtagFor(m: Mount, env: FileEnv, st: Stats): Option<string>
  {
    if EtagEnabled(m.opt) then Some(env.etagOf(st)) else None
  }

  /** The file given to `send`: an empty subpath serves the mount itself,
      by its base name, from the parent of the root. */
  function SendStep(m: Mount, req: Request, env: FileEnv): Step
    requires Qualifies(m, req)
  {
    if Subpath(m, req) == "" then Send(env.basename(m.virtualPath), env.dirname(m.root), m.opt)
    else Send(Subpath(m, req), m.root, m.opt)
  }

  function RunAll(handlers: seq<nat>): (r: seq<Step>)
    ensures |r| == |handlers|
  {
    seq(|handlers|, i requires 0 <= i < |handlers| => RunMiddleware(handlers[i]))
  }

  /** The position of the first post-middleware that rejects, if any. */
  function FirstRejecting(env: FileEnv, handlers: seq<nat>): (r: Option<nat>)
    ensures r.Some? ==> (r.value < |handlers| && env.rejects(handlers[r.value])
      && forall j :: 0 <= j < r.value ==> !env.rejects(handlers[j]))
    ensures r.None? ==> forall j :: 0 <= j < |handlers| ==> !env.rejects(handlers[j])
  {
    if |handlers| == 0 then None
    else
      match FirstRejecting(env, handlers[..|handlers| - 1])
      case Some(i) => Some(i)
      case None => if env.rejects(handlers[|handlers| - 1]) then Some(|handlers| - 1) else None
  }

  /** What happens once a file was found. The post-middlewares are awaited in
      order; the first that rejects ends the middleware with its error. */
  function Deliver(m: Mount, req: Request, env: FileEnv, st: Stats): seq<Step>
    requires Qualifies(m, req)
  {
    var etag := EtagFor(m, env, st);
    if IsConditionalGet(req.headers) && IsPreconditionFailure(req.headers, etag, st.mtime, env.parseDate) then
      [Reject(412)]
    else if IsConditionalGet(req.headers) && env.isFresh(req.headers, etag, st.mtime) then
      [Respond(304)]
    else
      match FirstRejecting(env, m.middlewares)
      case Some(k) => RunAll(m.middlewares[..k + 1]) + [Rethrow]
      case None => RunAll(m.middlewares) + [SetEtag(etag), SendStep(m, req, env)]
  }

  /** The middleware returned by `serveStatic` (lib/static.js:82-138), as the
      sequence of its effects on one request. */
  function Serve(m: Mount, req: Request, env: FileEnv): seq<Step>
  {
    if !Qualifies(m, req) then [Next]
    else
      match Found(m, req, env)
      case None => Probes(m, req, env) + [Next]
      case Some(st) => Probes(m, req, env) + Deliver(m, req, env, st)
  }

  /** `next` is called at most once, as the last step, and exactly when the
      method is not HEAD or GET, the path is outside the mount, or neither
      probed file exists. */
  lemma ServeCallsNextExactlyWhenDeclined(m: Mount, req: Request, env: FileEnv)
    ensures var steps := Serve(m, req, env);
      Next in steps <==>
        (|| !Qualifies(m, req)
         || (&& !(ProbesGzip(m, req) && env.stat(FullPath(m, req, env) + ".gz").Some?)
             && env.stat(FullPath(m, req, env)).None?))
    ensures var steps := Serve(m, req, env);
      Next in steps ==> steps[|steps| - 1] == Next && Next !in steps[..|steps| - 1]
  {
    var steps := Serve(m, req, env);
    if Qualifies(m, req) {
      var probes := Probes(m, req, env);
      assert Next !in probes;
      match Found(m, req, env)
      case None =>
        assert steps[..|steps| - 1] == probes;
      case Some(st) =>
        var rest := Deliver(m, req, env, st);
        assert Next !in rest;
        assert Next !in probes + rest;
    }
  }

  /** The `.gz` sibling is probed exactly when the request qualifies, gzip is
      enabled and the client prefers gzip; then it is probed first. The plain
      file is probed exactly when the request qualifies and no sibling was
      found. With the default options gzip and entity tags are both on. */
  lemma ServeProbeOrder(m: Mount, req: Request, env: FileEnv)
    requires Qualifies(m, req)
    ensures var steps, full := Serve(m, req, env), FullPath(m, req, env);
      && (Stat(full + ".gz") in steps <==> ProbesGzip(m, req))
      && (Stat(full) in steps <==> !(ProbesGzip(m, req) && env.stat(full + ".gz").Some?))
      && (ProbesGzip(m, req) ==> steps[0] == Stat(full + ".gz"))
    ensures GzipEnabled(StaticOptions(None, None)) && EtagEnabled(StaticOptions(None, None))
  {
    var steps, full := Serve(m, req, env), FullPath(m, req, env);
    assert |full + ".gz"| != |full|;
    var rest := steps[|Probes(m, req, env)|..];
    assert steps == Probes(m, req, env) + rest;
    assert forall f :: Stat(f) !in rest;
  }

  /** Once a file is found, a conditional request ends in 412 when its
      precondition fails, else in 304 when it is fresh, and in neither case
      runs the post-middlewares, sets the entity tag or sends. Otherwise, when
      no post-middleware rejects, every post-middleware runs, in order, then
      the entity tag is set, then the file is sent, last. */
  lemma ServeOutcomeOrder(m: Mount, req: Request, env: FileEnv, st: Stats)
    requires Qualifies(m, req) && Found(m, req, env) == Some(st)
    ensures var steps, etag, h := Serve(m, req, env), EtagFor(m, env, st), req.headers;
      && (Reject(412) in steps <==> IsConditionalGet(h) && IsPreconditionFailure(h, etag, st.mtime, env.parseDate))
      && (Respond(304) in steps <==>
            IsConditionalGet(h) && !IsPreconditionFailure(h, etag, st.mtime, env.parseDate)
            && env.isFresh(h, etag, st.mtime))
      && (SendStep(m, req, env) in steps <==>
            Reject(412) !in steps && Respond(304) !in steps && FirstRejecting(env, m.middlewares).None?)
      && (Reject(412) in steps || Respond(304) in steps ==> |steps| == |Probes(m, req, env)| + 1)
      && (SendStep(m, req, env) in steps ==>
            var n, p := |m.middlewares|, |Probes(m, req, env)|;
            && |steps| == p + n + 2
            && (forall i :: 0 <= i < n ==> steps[p + i] == RunMiddleware(m.middlewares[i]))
            && steps[p + n] == SetEtag(etag)
            && steps[p + n + 1] == SendStep(m, req, env))
  {
    var steps := Serve(m, req, env);
    var probes := Probes(m, req, env);
    var rest := Deliver(m, req, env, st);
    assert steps == probes + rest;
    assert forall x :: x in probes ==> x.Stat?;
    match FirstRejecting(env, m.middlewares)
    case Some(k) =>
      var thrown := RunAll(m.middlewares[..k + 1]) + [Rethrow];
      assert Reject(412) !in thrown && Respond(304) !in thrown && SendStep(m, req, env) !in thrown;
    case None =>
      var tail := RunAll(m.middlewares) + [SetEtag(EtagFor(m, env, st)), SendStep(m, req, env)];
      assert Reject(412) !in tail && Respond(304) !in tail;
  }

  /** A post-middleware that rejects ends the middleware once a file is found
      and the request was not answered 412 or 304: the post-middlewares before
      it and it run, in order, and its error leaves the middleware; the entity
      tag is never set and nothing is sent. */
  lemma ServeStopsAtRejection(m: Mount, req: Request, env: FileEnv, st: Stats)
    requires Qualifies(m, req) && Found(m, req, env) == Some(st)
    ensures var steps, etag, h := Serve(m, req, env), EtagFor(m, env, st), req.headers;
      Rethrow in steps <==>
        && !(IsConditionalGet(h) && (IsPreconditionFailure(h, etag, st.mtime, env.parseDate) || env.isFresh(h, etag, st.mtime)))
        && FirstRejecting(env, m.middlewares).Some?
    ensures var steps := Serve(m, req, env);
      Rethrow in steps ==>
        var k, p := FirstRejecting(env, m.middlewares).value, |Probes(m, req, env)|;
        && |steps| == p + k + 2
        && (forall i :: 0 <= i <= k ==> steps[p + i] == RunMiddleware(m.middlewares[i]))
        && steps[p + k + 1] == Rethrow
        && (forall i :: 0 <= i < |steps| ==> !steps[i].SetEtag? && !steps[i].Send?)
  {
    var steps := Serve(m, req, env);
    var probes := Probes(m, req, env);
    var rest := Deliver(m, req, env, st);
    assert steps == probes + rest;
    assert forall x :: x in probes ==> x.Stat?;
    match FirstRejecting(env, m.middlewares)
    case Some(k) =>
      var ran := RunAll(m.middlewares[..k + 1]);
      assert forall x :: x in ran ==> x.RunMiddleware?;
    case None =>
      var tail := RunAll(m.middlewares) + [SetEtag(EtagFor(m, env, st)), SendStep(m, req, env)];
      assert forall x :: x in RunAll(m.middlewares) ==> x.RunMiddleware?;
      assert Rethrow !in tail;
  }

  /** The file sent: a request for exactly the mount point serves the mount
      itself, by base name, from the parent of the root; any other request
      serves the rest of its path below the root. Either way `send` is given
      the options the middleware was created with. */
  lemma ServeSendTarget(m: Mount, req: Request, env: FileEnv)
    requires Qualifies(m, req)
    ensures Serve(m, req, env)[|Serve(m, req, env)| - 1].Send? ==>
      Serve(m, req, env)[|Serve(m, req, env)| - 1] ==
        if req.path == m.virtualPath then Send(env.basename(m.virtualPath), env.dirname(m.root), m.opt)
        else Send(req.path[|m.virtualPath|..], m.root, m.opt)
  {
    if req.path == m.virtualPath {
      assert Subpath(m, req) == "";
    } else {
      assert req.path == m.virtualPath + Subpath(m, req);
    }
  }

  /** When the client prefers gzip and the sibling exists, its stats decide:
      the precondition is evaluated and the entity tag is computed on the
      compressed file, and the plain file is never looked at. */
  lemma ServePrefersGzipSibling(m: Mount, req: Request, env: FileEnv)
    requires Qualifies(m, req) && ProbesGzip(m, req)
    requires env.stat(FullPath(m, req, env) + ".gz").Some?
    ensures Found(m, req, env) == env.stat(FullPath(m, req, env) + ".gz")
    ensures Probes(m, req, env) == [Stat(FullPath(m, req, env) + ".gz")]
  {
  }

  /** The part of the middleware after a file was found with stats `st`. */
  method DeliverFound(m: Mount, env: FileEnv, ctx: Context, st: Stats) returns (rest: seq<Step>)
    requires Qualifies(m, Request(ctx.httpMethod, ctx.path, ctx.headers, ctx.acceptsGzip))
    modifies ctx`status, ctx`etag
    ensures rest == Deliver(m, Request(ctx.httpMethod, ctx.path, ctx.headers, ctx.acceptsGzip), env, st)
    ensures ctx.status == if rest == [Respond(304)] then 304 else old(ctx.status)
    ensures ctx.etag == if rest[|rest| - 1].Send? then Some(EtagHeader(EtagFor(m, env, st))) else old(ctx.etag)
    ensures rest[|rest| - 1].Send? ==> |rest| >= 2 && rest[|rest| - 2] == SetEtag(EtagFor(m, env, st))
    ensures Respond(304) in rest <==> rest == [Respond(304)]
  {
    var etagVal := if EtagEnabled(m.opt) then Some(env.etagOf(st)) else None;
    if IsConditionalGet(ctx.headers) {
      if IsPreconditionFailure(ctx.headers, etagVal, st.mtime, env.parseDate) {
        rest := [Reject(412)];
        return;
      }
      if env.isFresh(ctx.headers, etagVal, st.mtime) {
        ctx.status := 304;
        rest := [Respond(304)];
        return;
      }
    }
    rest := [];
    for i := 0 to |m.middlewares|
      invariant rest == RunAll(m.middlewares[..i])
      invariant forall j :: 0 <= j < i ==> !env.rejects(m.middlewares[j])
    {
      assert RunAll(m.middlewares[..i + 1]) == RunAll(m.middlewares[..i]) + [RunMiddleware(m.middlewares[i])];
      rest := rest + [RunMiddleware(m.middlewares[i])];
      if env.rejects(m.middlewares[i]) {
        assert FirstRejecting(env, m.middlewares) == Some(i);
        rest := rest + [Rethrow];
        return;
      }
    }
    assert m.middlewares[..|m.middlewares|] == m.middlewares;
    ctx.etag := Some(EtagHeader(etagVal));
    rest := rest + [SetEtag(etagVal)];
    var subpath := ctx.path[|m.virtualPath|..];
    var actualRoot := m.root;
    if subpath == "" {
      subpath := env.basename(m.virtualPath);
      actualRoot := env.dirname(m.root);
    }
    rest := rest + [Send(subpath, actualRoot, m.opt)];
  }

  /** `serveStatic`'s middleware on a Koa context: probes, then declines,
      rejects, answers 304 or runs the post-middlewares, sets the entity tag and
      sends. Returns the steps it took. */
  method ServeStatic(m: Mount, env: FileEnv, ctx: Context) returns (steps: seq<Step>)
    modifies ctx`status, ctx`etag
    ensures steps == Serve(m, Request(ctx.httpMethod, ctx.path, ctx.headers, ctx.acceptsGzip), env)
    ensures ctx.status == if Respond(304) in steps then 304 else old(ctx.status)
    ensures ctx.etag == if steps[|steps| - 1].Send? then Some(EtagHeader(steps[|steps| - 2].etag)) else old(ctx.etag)
    ensures steps[|steps| - 1].Send? && !EtagEnabled(m.opt) ==> ctx.etag == Some("\"undefined\"")
  {
    var req := Request(ctx.httpMethod, ctx.path, ctx.headers, ctx.acceptsGzip);
    if !Qualifies(m, req) {
      return [Next];
    }
    var subpath := ctx.path[|m.virtualPath|..];
    var fullpath := env.join(m.root, subpath);
    var stats: Option<Stats> := None;
    steps := [];
    if GzipEnabled(m.opt) && ctx.acceptsGzip {
      stats := env.stat(fullpath + ".gz");
      steps := steps + [Stat(fullpath + ".gz")];
    }
    if stats.None? {
      stats := env.stat(fullpath);
      steps := steps + [Stat(fullpath)];
    }
    assert steps == Probes(m, req, env) && stats == Found(m, req, env);
    if stats.None? {
      return steps + [Next];
    }
    var probes := steps;
    assert Respond(304) !in probes;
    var rest := DeliverFound(m, env, ctx, stats.value);
    steps := probes + rest;
    assert Respond(304) in steps <==> Respond(304) in rest;
    assert steps[|steps| - 1] == rest[|rest| - 1];
    if rest[|rest| - 1].Send? {
      assert steps[|steps| - 2] == rest[|rest| - 2];
    }
  }
}
