/** Values shared by the server and the client model: optional values, the
    HTTP error replies the controllers send, and the few string operations
    the server and the client rely on (String.prototype.trim, split(' '),
    startsWith and a case-insensitive substring match). */
module Common {

  datatype Option<T> = None | Some(value: T)

  type UserId = int
  type CampaignId = int

  /** The error replies of the controllers and middleware, with their HTTP status. */
  datatype ApiError =
    | NotFound(message: string)        // 404
    | BadRequest(message: string)      // 400
    | Forbidden(message: string)       // 403
    | Unauthorized(message: string)    // 401
    | Internal(message: string)        // 500: an exception caught by a controller
  {
    function Status(): (code: int)
      ensures 400 <= code < 600
    {
      match this
      case NotFound(_) => 404
      case BadRequest(_) => 400
      case Forbidden(_) => 403
      case Unauthorized(_) => 401
      case Internal(_) => 500
    }
  }

  /** A controller's answer: a value (200 or 201) or an error reply. */
  datatype Reply<T> = Ok(value: T) | Fail(error: ApiError)

  // ---------------------------------------------------------------------
  // Strings

  /** The white space String.prototype.trim removes: ECMAScript's
      WhiteSpace (tab, vertical tab, form feed, space, no-break space, the
      other space separators of Unicode category Zs, and the byte order
      mark) and its LineTerminator (line feed, carriage return, line and
      paragraph separator). Tab to carriage return are U+0009 to U+000D. */
  predicate IsSpace(c: char) {
    || ('\t' <= c <= '\r') || c == ' ' || c == '\U{00A0}' || c == '\U{1680}'
    || ('\U{2000}' <= c <= '\U{200A}') || c == '\U{2028}' || c == '\U{2029}'
    || c == '\U{202F}' || c == '\U{205F}' || c == '\U{3000}' || c == '\U{FEFF}'
  }

  function TrimStart(s: string): (r: string)
    ensures |r| <= |s| && r == s[|s| - |r|..]
    ensures r == [] || !IsSpace(r[0])
    ensures forall i :: 0 <= i < |s| - |r| ==> IsSpace(s[i])
  {
    if s != [] && IsSpace(s[0]) then
      var r := TrimStart(s[1..]);
      assert forall i :: 0 <= i < |s| - |r| ==> IsSpace(s[i]) by {
        forall i | 0 <= i < |s| - |r| ensures IsSpace(s[i]) {
          if i > 0 {
            assert s[i] == s[1..][i - 1];
          }
        }
      }
      r
    else s
  }

  function TrimEnd(s: string): (r: string)
    ensures |r| <= |s| && r == s[..|r|]
    ensures r == [] || !IsSpace(r[|r| - 1])
    ensures forall i :: |r| <= i < |s| ==> IsSpace(s[i])
  {
    if s != [] && IsSpace(s[|s| - 1]) then
      var r := TrimEnd(s[..|s| - 1]);
      assert forall i :: |r| <= i < |s| ==> IsSpace(s[i]) by {
        forall i | |r| <= i < |s| ensures IsSpace(s[i]) {
          if i < |s| - 1 {
            assert s[i] == s[..|s| - 1][i];
          }
        }
      }
      r
    else s
  }

  /** String.prototype.trim: drop leading and trailing white space. The
      result is a slice of `s` with only white space outside it. */
  function Trim(s: string): (r: string)
    ensures exists i, j :: 0 <= i <= j <= |s| && r == s[i..j] && SpaceOutside(s, i, j)
    ensures r == [] || (!IsSpace(r[0]) && !IsSpace(r[|r| - 1]))
  {
    var t := TrimStart(s);
    var r := TrimEnd(t);
    TrimSlice(s, t, r);
    r
  }

  /** Only white space lies before `i` and from `j` on. */
  ghost predicate SpaceOutside(s: string, i: nat, j: nat)
    requires i <= j <= |s|
  {
    (forall k :: 0 <= k < i ==> IsSpace(s[k])) && (forall k :: j <= k < |s| ==> IsSpace(s[k]))
  }

  /** Where the trimmed text sits in the original: a prefix `r` of a
      suffix `t` of `s` is the slice of `s` at the suffix's offset, and it
      keeps the non-space ends of both. */
  lemma TrimSlice(s: string, t: string, r: string)
    requires |t| <= |s| && t == s[|s| - |t|..] && (forall k :: 0 <= k < |s| - |t| ==> IsSpace(s[k]))
    requires |r| <= |t| && r == t[..|r|] && (forall k :: |r| <= k < |t| ==> IsSpace(t[k]))
    requires t == [] || !IsSpace(t[0])
    requires r == [] || !IsSpace(r[|r| - 1])
    ensures exists i, j :: 0 <= i <= j <= |s| && r == s[i..j] && SpaceOutside(s, i, j)
    ensures r == [] || (!IsSpace(r[0]) && !IsSpace(r[|r| - 1]))
  {
    var i := |s| - |t|;
    assert r == s[i..i + |r|] by {
      assert s[i..][..|r|] == s[i..i + |r|];
    }
    forall k | i + |r| <= k < |s| ensures IsSpace(s[k]) {
      assert s[k] == t[k - i];
    }
    assert SpaceOutside(s, i, i + |r|);
    assert r != [] ==> r[0] == t[0];
  }

  /** Trimming never makes a text longer, in code units. */
  lemma TrimUtf16Length(s: string)
    ensures Utf16Length(Trim(s)) <= Utf16Length(s)
  {
    var i, j :| 0 <= i <= j <= |s| && Trim(s) == s[i..j] && SpaceOutside(s, i, j);
    Utf16LengthSlice(s, i, j);
  }

  predicate IsTrimmed(s: string) {
    s == [] || (!IsSpace(s[0]) && !IsSpace(s[|s| - 1]))
  }

  /** A string without white space at either end is left as it is by trim. */
  lemma TrimFixesTrimmed(s: string)
    requires IsTrimmed(s)
    ensures Trim(s) == s
  {
    assert TrimStart(s) == s;
  }

  /** Trim drops one space after a trimmed text. */
  lemma TrimDropsTrailingSpace(s: string)
    requires s != [] && IsTrimmed(s)
    ensures Trim(s + " ") == s
  {
    var p := s + " ";
    assert p[0] == s[0];
    assert TrimStart(p) == p;
    assert p[..|p| - 1] == s;
    assert TrimEnd(p) == TrimEnd(s);
    TrimFixesTrimmed(s);
    assert TrimStart(s) == s;
  }

  /** Trimming twice is trimming once. */
  lemma TrimIdempotent(s: string)
    ensures IsTrimmed(Trim(s))
    ensures Trim(Trim(s)) == Trim(s)
  {
    TrimFixesTrimmed(Trim(s));
  }

  lemma {:induction false} TrimStartOfBlank(s: string)
    requires forall i :: 0 <= i < |s| ==> IsSpace(s[i])
    ensures TrimStart(s) == []
  {
    if s != [] {
      TrimStartOfBlank(s[1..]);
    }
  }

  /** A string trims to the empty string exactly when it is all white space. */
  lemma TrimEmptyIffBlank(s: string)
    ensures Trim(s) == [] <==> forall i :: 0 <= i < |s| ==> IsSpace(s[i])
  {
    var t := TrimStart(s);
    if Trim(s) == [] {
      assert TrimEnd(t) == [];
      assert t == [];
    }
    if forall i :: 0 <= i < |s| ==> IsSpace(s[i]) {
      TrimStartOfBlank(s);
    }
  }

  /** Leading white space of any kind, the Unicode spaces included, does
      not change the trimmed text. */
  lemma TrimSkipsLeadingSpace(c: char, s: string)
    requires IsSpace(c)
    ensures Trim([c] + s) == Trim(s)
  {
    assert ([c] + s)[1..] == s;
  }

  /** Line breaks, the no-break space and the ideographic space are all
      trimmed away. */
  lemma TrimBlankOfUnicodeSpaces()
    ensures Trim("\n\U{00A0}\U{3000}") == ""
  {
    TrimEmptyIffBlank("\n\U{00A0}\U{3000}");
  }

  /** So are the line separator and the byte order mark. */
  lemma TrimBlankOfSeparators()
    ensures Trim("\U{2028}\U{FEFF}") == ""
  {
    TrimEmptyIffBlank("\U{2028}\U{FEFF}");
  }

  /** A leading ideographic space goes, the letter after it stays. */
  lemma TrimIdeographicSpace()
    ensures Trim(['\U{3000}'] + "a") == "a"
  {
    TrimSkipsLeadingSpace('\U{3000}', "a");
    TrimFixesTrimmed("a");
  }

  /** String.prototype.length: the number of UTF-16 code units, so a
      character outside the Basic Multilingual Plane counts twice. */
  function Utf16Length(s: string): (n: nat)
    ensures |s| <= n <= 2 * |s|
    decreases |s|
  {
    if s == [] then 0
    else Utf16Length(s[..|s| - 1]) + (if s[|s| - 1] as int >= 0x10000 then 2 else 1)
  }

  /** A text outside the Basic Multilingual Plane counts two units per
      character; one inside it, one. */
  lemma {:induction false} Utf16LengthUniform(s: string)
    ensures (forall i :: 0 <= i < |s| ==> s[i] as int < 0x10000) ==> Utf16Length(s) == |s|
    ensures (forall i :: 0 <= i < |s| ==> s[i] as int >= 0x10000) ==> Utf16Length(s) == 2 * |s|
    decreases |s|
  {
    if s != [] {
      var init := s[..|s| - 1];
      assert forall i :: 0 <= i < |init| ==> init[i] == s[i];
      Utf16LengthUniform(init);
    }
  }

  lemma {:induction false} Utf16LengthAppend(a: string, b: string)
    ensures Utf16Length(a + b) == Utf16Length(a) + Utf16Length(b)
    decreases |b|
  {
    if b == [] {
      assert a + b == a;
    } else {
      var b' := b[..|b| - 1];
      assert (a + b)[..|a + b| - 1] == a + b';
      assert (a + b)[|a + b| - 1] == b[|b| - 1];
      Utf16LengthAppend(a, b');
    }
  }

  /** A space appended counts one unit. */
  lemma Utf16LengthSpaceAppended(s: string)
    ensures Utf16Length(s + " ") == Utf16Length(s) + 1
  {
    Utf16LengthAppend(s, " ");
    assert " "[..0] == [];
  }

  /** A slice is never longer than the string it is cut from. */
  lemma Utf16LengthSlice(s: string, i: nat, j: nat)
    requires i <= j <= |s|
    ensures Utf16Length(s[i..j]) <= Utf16Length(s)
  {
    var a, b, c := s[..i], s[i..j], s[j..];
    assert s == (a + b) + c;
    Utf16LengthAppend(a + b, c);
    Utf16LengthAppend(a, b);
  }

  predicate StartsWith(s: string, prefix: string) {
    |prefix| <= |s| && s[..|prefix|] == prefix
  }

  /** ASCII lower-casing, as the case-insensitive match compares letters. */
  function LowerChar(c: char): char {
    if 'A' <= c <= 'Z' then (c as int + 32) as char else c
  }

  function Lower(s: string): string {
    seq(|s|, i requires 0 <= i < |s| => LowerChar(s[i]))
  }

  /** `needle` occurs in `hay` starting at position `i`. */
  predicate OccursAt(hay: string, needle: string, i: int) {
    0 <= i <= |hay| - |needle| && hay[i..i + |needle|] == needle
  }

  /** `needle` occurs in `hay` at some position. */
  predicate Contains(hay: string, needle: string) {
    exists i :: 0 <= i <= |hay| - |needle| && OccursAt(hay, needle, i)
  }

  /** The case-insensitive match of a search term against a text. */
  predicate MatchesIgnoringCase(text: string, term: string) {
    Contains(Lower(text), Lower(term))
  }

  /** The empty term matches every text. */
  lemma EmptyTermMatches(text: string)
    ensures MatchesIgnoringCase(text, "")
  {
    assert OccursAt(Lower(text), Lower(""), 0);
  }

  /** Position of the first occurrence of `c` in `s`. */
  function IndexOf(s: string, c: char): (i: nat)
    requires c in s
    ensures i < |s| && s[i] == c && c !in s[..i]
  {
    if s[0] == c then 0 else 1 + IndexOf(s[1..], c)
  }

  /** String.prototype.split(' '): the fields between single spaces. */
  function SplitOnSpace(s: string): (fields: seq<string>)
    ensures |fields| >= 1
    decreases |s|
  {
    if ' ' in s then
      var i := IndexOf(s, ' ');
      [s[..i]] + SplitOnSpace(s[i + 1..])
    else [s]
  }

  /** Array.prototype.join(sep); joined on " " it undoes SplitOnSpace. */
  function Join(parts: seq<string>, sep: string): string {
    if parts == [] then ""
    else if |parts| == 1 then parts[0]
    else parts[0] + sep + Join(parts[1..], sep)
  }

  /** Splitting on spaces loses nothing: joining the fields gives the text
      back, and no field holds a space. */
  lemma {:induction false} SplitJoinRoundTrip(s: string)
    ensures Join(SplitOnSpace(s), " ") == s
    ensures forall k :: 0 <= k < |SplitOnSpace(s)| ==> ' ' !in SplitOnSpace(s)[k]
    decreases |s|
  {
    if ' ' in s {
      var i := IndexOf(s, ' ');
      SplitJoinRoundTrip(s[i + 1..]);
      var rest := SplitOnSpace(s[i + 1..]);
      assert SplitOnSpace(s) == [s[..i]] + rest;
      assert (SplitOnSpace(s))[1..] == rest;
      assert s == s[..i] + " " + s[i + 1..];
    }
  }

  // ---------------------------------------------------------------------
  // Sequences

  /** Array.prototype.filter: the elements that `keep` accepts, in order. */
  function Filter<T(!new)>(s: seq<T>, keep: T -> bool): (r: seq<T>)
    ensures |r| <= |s|
    ensures forall x :: x in r <==> x in s && keep(x)
    decreases |s|
  {
    if s == [] then []
    else Filter(s[..|s| - 1], keep) + (if keep(s[|s| - 1]) then [s[|s| - 1]] else [])
  }

  lemma {:induction false} FilterAppend<T(!new)>(a: seq<T>, b: seq<T>, keep: T -> bool)
    ensures Filter(a + b, keep) == Filter(a, keep) + Filter(b, keep)
    decreases |b|
  {
    if b == [] {
      assert a + b == a;
    } else {
      var b' := b[..|b| - 1];
      assert (a + b)[..|a + b| - 1] == a + b';
      assert (a + b)[|a + b| - 1] == b[|b| - 1];
      FilterAppend(a, b', keep);
    }
  }

  /** Every element kept by the filter keeps its relative order: the result is
      the input with the rejected elements taken out. */
  lemma {:induction false} FilterAll<T(!new)>(s: seq<T>, keep: T -> bool)
    requires forall i :: 0 <= i < |s| ==> keep(s[i])
    ensures Filter(s, keep) == s
    decreases |s|
  {
    if s != [] {
      var init := s[..|s| - 1];
      assert forall i :: 0 <= i < |init| ==> init[i] == s[i];
      FilterAll(init, keep);
      assert Filter(s, keep) == init + [s[|s| - 1]];
      assert s == init + [s[|s| - 1]];
    }
  }

  /** The elements in the opposite order. */
  function Reverse<T>(s: seq<T>): (r: seq<T>)
    ensures |r| == |s|
    ensures forall i :: 0 <= i < |s| ==> r[i] == s[|s| - 1 - i]
    decreases |s|
  {
    if s == [] then [] else [s[|s| - 1]] + Reverse(s[..|s| - 1])
  }

  function Min(a: int, b: int): int {
    if a <= b then a else b
  }

  /** Array.prototype.slice(0, n). */
  function Take<T>(s: seq<T>, n: nat): (r: seq<T>)
    ensures |r| == Min(n, |s|)
    ensures forall i :: 0 <= i < |r| ==> r[i] == s[i]
  {
    if n <= |s| then s[..n] else s
  }
}
