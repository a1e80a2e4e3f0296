/**
 * The clean-up the fortune endpoint applies to the language model's text
 * before handing it to `JSON.parse` (src/app/api/fortune/today/route.ts:134-137):
 * a global replace of /```json\n?/ by the empty string, then a global replace
 * of /```\n?/, then `trim`.
 */
module ResponseText {

  /** A run of three backticks starts at index i of s. */
  predicate FenceAt(s: string, i: int)
  {
    0 <= i && i + 3 <= |s| && s[i] == '`' && s[i + 1] == '`' && s[i + 2] == '`'
  }

  /** "```json" starts at index i of s. */
  predicate JsonFenceAt(s: string, i: int)
  {
    FenceAt(s, i) && i + 7 <= |s| && s[i + 3] == 'j' && s[i + 4] == 's' && s[i + 5] == 'o' && s[i + 6] == 'n'
  }

  predicate HasFence(s: string)
  {
    exists i | 0 <= i < |s| :: FenceAt(s, i)
  }

  /**
   * `s.replace(/```json\n?/g, '')`: the regular expression is tried at each
   * position from the left; a match (taking the newline when there is one) is
   * dropped and the scan resumes after it, any other character is kept.
   */
  function StripJsonFences(s: string): (r: string)
    ensures |r| <= |s|
    decreases |s|
  {
    if JsonFenceAt(s, 0) then
      var n := if |s| > 7 && s[7] == '\n' then 8 else 7;
      StripJsonFences(s[n..])
    else if s == [] then []
    else [s[0]] + StripJsonFences(s[1..])
  }

  /** `s.replace(/```\n?/g, '')`, scanned the same way. */
  function StripFences(s: string): (r: string)
    ensures |r| <= |s|
    decreases |s|
  {
    if FenceAt(s, 0) then
      var n := if |s| > 3 && s[3] == '\n' then 4 else 3;
      StripFences(s[n..])
    else if s == [] then []
    else [s[0]] + StripFences(s[1..])
  }

  /**
   * The characters `String.prototype.trim` removes: the ECMAScript WhiteSpace
   * code points (tab, vertical tab, form feed, space, no-break space, the byte
   * order mark and the other Unicode space separators) and the LineTerminator
   * code points.
   */
  predicate IsWhiteSpace(c: char)
  {
    || c == '\U{9}' || c == '\U{B}' || c == '\U{C}' || c == ' '
    || c == '\U{A0}' || c == '\U{FEFF}' || c == '\U{1680}'
    || ('\U{2000}' <= c <= '\U{200A}') || c == '\U{202F}' || c == '\U{205F}' || c == '\U{3000}'
    || c == '\n' || c == '\r' || c == '\U{2028}' || c == '\U{2029}'
  }

  /** Neither end of s is white space. */
  predicate Trimmed(s: string)
  {
    s == [] || (!IsWhiteSpace(s[0]) && !IsWhiteSpace(s[|s| - 1]))
  }

  /** Drops the leading white space: the result is the suffix of s after it. */
  function TrimStart(s: string): (r: string)
    ensures |r| <= |s| && r == s[|s| - |r|..]
    ensures r == [] || !IsWhiteSpace(r[0])
    ensures forall i :: 0 <= i < |s| - |r| ==> IsWhiteSpace(s[i])
  {
    if s != [] && IsWhiteSpace(s[0]) then TrimStart(s[1..]) else s
  }

  /** Drops the trailing white space: the result is the prefix of s before it. */
  function TrimEnd(s: string): (r: string)
    ensures |r| <= |s| && r == s[..|r|]
    ensures r == [] || !IsWhiteSpace(r[|r| - 1])
    ensures forall i :: |r| <= i < |s| ==> IsWhiteSpace(s[i])
  {
    if s != [] && IsWhiteSpace(s[|s| - 1]) then TrimEnd(s[..|s| - 1]) else s
  }

  function Trim(s: string): (r: string)
  {
    TrimEnd(TrimStart(s))
  }

  /** Trim yields a slice of its input with no white space at either end. */
  lemma TrimIsTrimmedSlice(s: string)
    ensures Trimmed(Trim(s))
    ensures exists i, j :: 0 <= i <= j <= |s| && Trim(s) == s[i..j]
  {
    var t := TrimStart(s);
    var r := TrimEnd(t);
    assert t == s[|s| - |t|..];
    assert r == t[..|r|];
    assert r == s[|s| - |t|..|s| - |t| + |r|];
    if r != [] {
      assert r[0] == t[0];
    }
  }

  lemma TrimOfTrimmed(s: string)
    requires Trimmed(s)
    ensures Trim(s) == s
  {
  }

  /** trim is idempotent. */
  lemma TrimIdempotent(s: string)
    ensures Trim(Trim(s)) == Trim(s)
  {
    TrimIsTrimmedSlice(s);
    TrimOfTrimmed(Trim(s));
  }

  /** The code that the endpoint runs on the raw text before parsing it. */
  function Clean(raw: string): (r: string)
    ensures !HasFence(r) && Trimmed(r)
  {
    var stripped := StripFences(StripJsonFences(raw));
    NoFenceAfterStrip(StripJsonFences(raw));
    TrimIsTrimmedSlice(stripped);
    NoFenceInSlice(stripped, Trim(stripped));
    Trim(stripped)
  }

  /** No run of three backticks survives the second replace. */
  lemma {:induction false} NoFenceAfterStrip(s: string)
    ensures !HasFence(StripFences(s))
    decreases |s|
  {
    if FenceAt(s, 0) {
      NoFenceAfterStrip(s[if |s| > 3 && s[3] == '\n' then 4 else 3..]);
    } else if s != [] {
      var rest := StripFences(s[1..]);
      NoFenceAfterStrip(s[1..]);
      var r := [s[0]] + rest;
      assert StripFences(s) == r;
      forall i | 0 <= i < |r| ensures !FenceAt(r, i) {
        if i > 0 {
          assert !FenceAt(rest, i - 1);
        } else if |r| >= 3 && r[0] == '`' && r[1] == '`' {
          NoFenceAtHead(s);
        }
      }
    }
  }

  /**
   * When the second replace keeps a leading backtick and the next kept
   * character is one too, the one after that is not: a third backtick would
   * have made the first three characters a fence.
   */
  lemma NoFenceAtHead(s: string)
    requires s != [] && s[0] == '`' && !FenceAt(s, 0)
    requires |StripFences(s[1..])| >= 2 && StripFences(s[1..])[0] == '`'
    ensures StripFences(s[1..])[1] != '`'
  {
    var t := s[1..];
    assert t != [];
    assert StripFences(t) == [t[0]] + StripFences(t[1..]);
    var u := t[1..];
    assert u != [];
    assert StripFences(u) == [u[0]] + StripFences(u[1..]);
  }

  lemma NoFenceInSlice(s: string, t: string)
    requires !HasFence(s)
    requires exists i, j :: 0 <= i <= j <= |s| && t == s[i..j]
    ensures !HasFence(t)
  {
    var i, j :| 0 <= i <= j <= |s| && t == s[i..j];
    forall k | 0 <= k < |t| ensures !FenceAt(t, k) {
      assert !FenceAt(s, i + k);
    }
  }

  /** A text without a fence, and every slice of it, has no match to drop. */
  lemma {:induction false} StripJsonFencesNoFence(s: string)
    requires !HasFence(s)
    ensures StripJsonFences(s) == s
    decreases |s|
  {
    if s != [] {
      assert !FenceAt(s, 0);
      assert s[1..] == s[1..|s|];
      NoFenceInSlice(s, s[1..]);
      StripJsonFencesNoFence(s[1..]);
    }
  }

  lemma {:induction false} StripFencesNoFence(s: string)
    requires !HasFence(s)
    ensures StripFences(s) == s
    decreases |s|
  {
    if s != [] {
      assert !FenceAt(s, 0);
      assert s[1..] == s[1..|s|];
      NoFenceInSlice(s, s[1..]);
      StripFencesNoFence(s[1..]);
    }
  }

  /** Cleaning twice is the same as cleaning once. */
  lemma CleanIdempotent(raw: string)
    ensures Clean(Clean(raw)) == Clean(raw)
  {
    var c := Clean(raw);
    StripJsonFencesNoFence(c);
    StripFencesNoFence(c);
    TrimOfTrimmed(c);
  }

  lemma {:induction false} StripJsonFencesPrefix(x: string, y: string)
    requires '`' !in x
    ensures StripJsonFences(x + y) == x + StripJsonFences(y)
    decreases |x|
  {
    if x == [] {
      assert x + y == y;
    } else {
      var t := x + y;
      assert t[0] == x[0] && x[0] in x;
      assert t[1..] == x[1..] + y;
      assert '`' !in x[1..];
      StripJsonFencesPrefix(x[1..], y);
      calc {
        StripJsonFences(t);
        [x[0]] + StripJsonFences(x[1..] + y);
        [x[0]] + (x[1..] + StripJsonFences(y));
      }
      assert x == [x[0]] + x[1..];
    }
  }

  lemma {:induction false} StripFencesPrefix(x: string, y: string)
    requires '`' !in x
    ensures StripFences(x + y) == x + StripFences(y)
    decreases |x|
  {
    if x == [] {
      assert x + y == y;
    } else {
      var t := x + y;
      assert t[0] == x[0] && x[0] in x;
      assert t[1..] == x[1..] + y;
      StripFencesPrefix(x[1..], y);
      assert x == [x[0]] + x[1..];
    }
  }

  lemma {:induction false} TrimStartAppend(s: string, t: string)
    ensures TrimStart(s + t) == if TrimStart(s) == [] then TrimStart(t) else TrimStart(s) + t
    decreases |s|
  {
    if s != [] {
      assert (s + t)[0] == s[0];
      assert (s + t)[1..] == s[1..] + t;
      if IsWhiteSpace(s[0]) {
        TrimStartAppend(s[1..], t);
      }
    } else {
      assert s + t == t;
    }
  }

  /** Text without backticks is only trimmed. */
  lemma CleanOfBare(s: string)
    requires '`' !in s
    ensures Clean(s) == Trim(s)
  {
    StripJsonFencesPrefix(s, []);
    StripFencesPrefix(s, []);
    assert s + [] == s;
  }

  lemma StripWrappedJsonFence(s: string)
    requires '`' !in s
    ensures StripJsonFences("```json\n" + s + "\n```") == s + "\n```"
  {
    var wrapped := "```json\n" + s + "\n```";
    assert JsonFenceAt(wrapped, 0) && wrapped[7] == '\n';
    assert wrapped[8..] == (s + "\n") + "```";
    StripJsonFencesPrefix(s + "\n", "```");
    assert StripJsonFences("```") == "```" by {
      assert "```"[1..] == "``" && "``"[1..] == "`" && "`"[1..] == [];
    }
  }

  lemma StripClosingFence(s: string)
    requires '`' !in s
    ensures StripFences(s + "\n```") == s + "\n"
  {
    StripFencesPrefix(s + "\n", "```");
    assert StripFences("```") == [] by {
      assert FenceAt("```", 0) && "```"[3..] == [];
    }
    assert s + "\n" + "```" == s + "\n```";
  }

  lemma TrimDropsTrailingNewline(s: string)
    ensures Trim(s + "\n") == Trim(s)
  {
    var a := TrimStart(s);
    TrimStartAppend(s, "\n");
    if a == [] {
      assert "\n"[1..] == [];
      assert TrimStart("\n") == [];
    } else {
      var t := a + "\n";
      assert t[|t| - 1] == '\n';
      assert t[..|t| - 1] == a;
      assert TrimEnd(t) == TrimEnd(a);
    }
  }

  /** A reply wrapped in a ```json fence cleans to the trimmed text inside it. */
  lemma CleanFencedReply(s: string)
    requires '`' !in s
    ensures Clean("```json\n" + s + "\n```") == Trim(s)
  {
    StripWrappedJsonFence(s);
    StripClosingFence(s);
    TrimDropsTrailingNewline(s);
  }
}
