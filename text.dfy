/** The JavaScript string operations the core relies on: `split`, `join`, `trim`, `replace`
    with a string pattern, `endsWith` and `charCodeAt`, with the laws that connect them. */
module Text {
  import opened Base

  /** `s.split(sep)` for a one-character separator: the pieces between separators, in
      order; an empty string splits into one empty piece. */
  function Split(s: string, sep: char): (r: seq<string>)
    ensures |r| >= 1
    ensures forall i :: 0 <= i < |r| ==> sep !in r[i]
  {
    if |s| == 0 then [""]
    else
      var rest := Split(s[1..], sep);
      if s[0] == sep then [""] + rest
      else [[s[0]] + rest[0]] + rest[1..]
  }

  /** `parts.join(sep)`; the empty array joins to the empty string. */
  function Join(parts: seq<string>, sep: string): string
  {
    if |parts| == 0 then ""
    else if |parts| == 1 then parts[0]
    else parts[0] + sep + Join(parts[1..], sep)
  }

  /** Every piece followed by a newline, concatenated: what sending each line of a script
      with `line + '\n'` puts on the wire. */
  function Terminated(lines: seq<string>): (r: string)
    ensures |r| >= |lines|
    ensures |lines| > 0 ==> r[|r| - 1] == '\n'
  {
    if |lines| == 0 then "" else lines[0] + "\n" + Terminated(lines[1..])
  }

  /** The pieces concatenated in order. */
  function Concat(parts: seq<string>): string
  {
    if |parts| == 0 then "" else parts[0] + Concat(parts[1..])
  }

  /** Concatenating one more piece appends it. */
  lemma {:induction false} ConcatSnoc(parts: seq<string>, part: string)
    ensures Concat(parts + [part]) == Concat(parts) + part
  {
    if |parts| > 0 {
      assert (parts + [part])[1..] == parts[1..] + [part];
      ConcatSnoc(parts[1..], part);
    } else {
      assert [] + [part] == [part];
    }
  }

  /** `text.charCodeAt(i)` for i = 0 .. length-1. */
  function CharCodes(t: string): seq<nat>
  {
    seq(|t|, i requires 0 <= i < |t| => t[i] as nat)
  }

  lemma CharCodesAppend(a: string, b: string)
    ensures CharCodes(a + b) == CharCodes(a) + CharCodes(b)
  {
  }

  /** A string without the separator is its own single piece. */
  lemma {:induction false} SplitNoSeparator(s: string, sep: char)
    requires sep !in s
    ensures Split(s, sep) == [s]
  {
    if |s| > 0 {
      SplitNoSeparator(s[1..], sep);
      assert [s[0]] + s[1..] == s;
    }
  }

  /** Splitting distributes over a separator: the pieces of `a`, then the pieces of `b`. */
  lemma {:induction false} SplitAppend(a: string, b: string, sep: char)
    ensures Split(a + [sep] + b, sep) == Split(a, sep) + Split(b, sep)
  {
    if |a| == 0 {
      assert a + [sep] + b == [sep] + b;
      assert ([sep] + b)[1..] == b;
    } else {
      assert (a + [sep] + b)[1..] == a[1..] + [sep] + b;
      SplitAppend(a[1..], b, sep);
    }
  }

  /** Joining the pieces with the separator gives the string back. */
  lemma {:induction false} JoinSplit(s: string, sep: char)
    ensures Join(Split(s, sep), [sep]) == s
  {
    if |s| > 0 {
      var rest := Split(s[1..], sep);
      JoinSplit(s[1..], sep);
      if s[0] == sep {
        assert Split(s, sep) == [""] + rest;
        assert ([""] + rest)[1..] == rest;
      } else {
        var r := Split(s, sep);
        assert r == [[s[0]] + rest[0]] + rest[1..];
        if |rest| == 1 {
          assert Join(rest, [sep]) == rest[0];
        } else {
          assert Join(rest, [sep]) == rest[0] + [sep] + Join(rest[1..], [sep]);
          assert r[1..] == rest[1..];
        }
      }
    }
  }

  /** Sending every piece with a newline appended sends the joined text plus one newline. */
  lemma {:induction false} TerminatedJoin(lines: seq<string>)
    requires |lines| >= 1
    ensures Terminated(lines) == Join(lines, "\n") + "\n"
  {
    if |lines| >= 2 {
      TerminatedJoin(lines[1..]);
    }
  }

  /** So the line-by-line injection of a script puts the script and one extra newline on the wire. */
  lemma TerminatedSplit(s: string)
    ensures Terminated(Split(s, '\n')) == s + "\n"
  {
    TerminatedJoin(Split(s, '\n'));
    JoinSplit(s, '\n');
  }

  /** The pieces of every string in turn. */
  function SplitAll(texts: seq<string>, sep: char): seq<string>
  {
    if |texts| == 0 then [] else Split(texts[0], sep) + SplitAll(texts[1..], sep)
  }

  lemma {:induction false} SplitAllAppend(a: seq<string>, b: seq<string>, sep: char)
    ensures SplitAll(a + b, sep) == SplitAll(a, sep) + SplitAll(b, sep)
  {
    if |a| > 0 {
      assert (a + b)[1..] == a[1..] + b;
      SplitAllAppend(a[1..], b, sep);
    } else {
      assert a + b == b;
    }
  }

  /** Strings without the separator are their own pieces. */
  lemma {:induction false} SplitAllNoSeparator(texts: seq<string>, sep: char)
    requires forall i :: 0 <= i < |texts| ==> sep !in texts[i]
    ensures SplitAll(texts, sep) == texts
  {
    if |texts| > 0 {
      SplitNoSeparator(texts[0], sep);
      SplitAllNoSeparator(texts[1..], sep);
      assert [texts[0]] + texts[1..] == texts;
    }
  }

  /** The lines of newline-terminated texts: each text's own lines, then the empty piece
      after the final newline. */
  lemma {:induction false} SplitTerminated(texts: seq<string>)
    ensures Split(Terminated(texts), '\n') == SplitAll(texts, '\n') + [""]
  {
    if |texts| > 0 {
      SplitAppend(texts[0], Terminated(texts[1..]), '\n');
      SplitTerminated(texts[1..]);
    }
  }

  /** The characters `String.prototype.trim` removes: ECMAScript WhiteSpace (tab, vertical
      tab, form feed, space, no-break space, the byte-order mark and the Zs space separators)
      and LineTerminator (line feed, carriage return, line and paragraph separators). */
  predicate IsSpace(c: char)
  {
    || c == '\t' || c == '\U{000B}' || c == '\U{000C}' || c == ' ' || c == '\U{00A0}' || c == '\U{FEFF}'
    || c == '\U{1680}' || ('\U{2000}' <= c <= '\U{200A}') || c == '\U{202F}' || c == '\U{205F}' || c == '\U{3000}'
    || c == '\n' || c == '\r' || c == '\U{2028}' || c == '\U{2029}'
  }

  /** `s.trimStart()`: the suffix left once the leading white space is gone. */
  function TrimStart(s: string): (r: string)
    ensures |r| <= |s| && r == s[|s| - |r|..]
    ensures forall k :: 0 <= k < |s| - |r| ==> IsSpace(s[k])
    ensures |r| > 0 ==> !IsSpace(r[0])
  {
    if |s| > 0 && IsSpace(s[0]) then TrimStart(s[1..]) else s
  }

  /** `s.trimEnd()`: the prefix left once the trailing white space is gone. */
  function TrimEnd(s: string): (r: string)
    ensures |r| <= |s| && r == s[..|r|]
    ensures forall k :: |r| <= k < |s| ==> IsSpace(s[k])
    ensures |r| > 0 ==> !IsSpace(r[|r| - 1])
  {
    if |s| > 0 && IsSpace(s[|s| - 1]) then TrimEnd(s[..|s| - 1]) else s
  }

  /** `s.trim()`. */
  function Trim(s: string): string
  {
    TrimEnd(TrimStart(s))
  }

  /** Trimming removes exactly the white space around a core that neither starts nor ends
      with white space. */
  lemma TrimAround(lead: string, core: string, trail: string)
    requires forall k :: 0 <= k < |lead| ==> IsSpace(lead[k])
    requires forall k :: 0 <= k < |trail| ==> IsSpace(trail[k])
    requires |core| > 0 && !IsSpace(core[0]) && !IsSpace(core[|core| - 1])
    ensures Trim(lead + core + trail) == core
  {
    var s := lead + core + trail;
    var t := TrimStart(s);
    assert forall k :: 0 <= k < |lead| ==> IsSpace(s[k]);
    assert !IsSpace(s[|lead|]);
    assert |s| - |t| == |lead|;
    assert t == core + trail;
    var u := TrimEnd(t);
    assert forall k :: |core| <= k < |t| ==> IsSpace(t[k]);
    assert !IsSpace(t[|core| - 1]);
    assert |u| == |core|;
    assert u == core;
  }

  /** `pat` occurs in `s` at position `k`. */
  predicate OccursAt(s: string, pat: string, k: nat)
  {
    k + |pat| <= |s| && s[k..k + |pat|] == pat
  }

  /** `s.indexOf(pat)`: the earliest position where `pat` occurs, or None. */
  function Find(s: string, pat: string): (r: Option<nat>)
    ensures r.Some? ==> OccursAt(s, pat, r.value)
    ensures r.Some? ==> forall k: nat :: k < r.value ==> !OccursAt(s, pat, k)
    ensures r.None? ==> forall k: nat :: !OccursAt(s, pat, k)
  {
    if |s| < |pat| then None
    else if s[..|pat|] == pat then Some(0)
    else
      match Find(s[1..], pat)
      case None =>
        assert forall k: nat :: OccursAt(s, pat, k + 1) ==> OccursAt(s[1..], pat, k) by {
          forall k: nat | OccursAt(s, pat, k + 1) ensures OccursAt(s[1..], pat, k) {
            assert s[1..][k..k + |pat|] == s[k + 1..k + 1 + |pat|];
          }
        }
        assert !OccursAt(s, pat, 0);
        assert forall k: nat :: k > 0 ==> !OccursAt(s, pat, k) by {
          forall k: nat | k > 0 ensures !OccursAt(s, pat, k) {
            assert !OccursAt(s[1..], pat, k - 1);
          }
        }
        None
      case Some(j) =>
        assert s[1..][j..j + |pat|] == s[j + 1..j + 1 + |pat|];
        assert forall k: nat :: 0 < k <= j ==> !OccursAt(s, pat, k) by {
          forall k: nat | 0 < k <= j ensures !OccursAt(s, pat, k) {
            assert !OccursAt(s[1..], pat, k - 1);
          }
        }
        Some(j + 1)
  }

  /** The earliest occurrence is what `indexOf` finds. */
  lemma FindFirst(s: string, pat: string, k: nat)
    requires OccursAt(s, pat, k)
    requires forall j: nat :: j < k ==> !OccursAt(s, pat, j)
    ensures Find(s, pat) == Some(k)
  {
    var r := Find(s, pat);
    assert r.Some?;
    assert !(r.value < k);
    assert !(k < r.value);
  }

  /** `s.replace(pat, rep)` with a string pattern: only the FIRST occurrence is replaced. */
  function ReplaceFirst(s: string, pat: string, rep: string): (r: string)
    ensures Find(s, pat).None? ==> r == s
    ensures Find(s, pat).Some? ==> |r| == |s| - |pat| + |rep|
  {
    match Find(s, pat)
    case None => s
    case Some(k) => s[..k] + rep + s[k + |pat|..]
  }

  /** `s.endsWith(suffix)`. */
  predicate EndsWith(s: string, suffix: string)
  {
    |suffix| <= |s| && s[|s| - |suffix|..] == suffix
  }
}
