/** The markdown down-conversion applied to every answer before it is sent:
    the model's double-star bold and triple-backtick fences become the
    single-star and single-backtick markers of the chat's basic markdown. */
module Markdown {

  /** `pat` occurs in `s` starting at index `i`. */
  predicate OccursAt(s: string, pat: string, i: int)
  {
    0 <= i && i + |pat| <= |s| && s[i..i + |pat|] == pat
  }

  /** `pat` occurs somewhere in `s`. */
  predicate Occurs(s: string, pat: string)
  {
    exists i :: 0 <= i <= |s| && OccursAt(s, pat, i)
  }

  /** `s.replace(pat, rep)`: every occurrence of `pat`, found leftmost first
      and without overlap, is replaced by `rep`. A replacement that is not
      longer than the pattern never makes the text longer. */
  function ReplaceAll(s: string, pat: string, rep: string): (r: string)
    requires pat != []
    ensures |rep| <= |pat| ==> |r| <= |s|
    decreases |s|
  {
    if |s| < |pat| then s
    else if s[..|pat|] == pat then rep + ReplaceAll(s[|pat|..], pat, rep)
    else [s[0]] + ReplaceAll(s[1..], pat, rep)
  }

  /** `format_for_telegram`: `**` becomes `*`, then ``` becomes `. */
  function FormatForTelegram(text: string): (r: string)
    ensures |r| <= |text|
  {
    ReplaceAll(ReplaceAll(text, "**", "*"), "```", "`")
  }

  /** The two marker characters the conversion rewrites. */
  const Markers: set<char> := {'*', '`'}

  /** `s` with every character of `drop` deleted. */
  function Without(s: string, drop: set<char>): string
  {
    if s == [] then [] else (if s[0] in drop then [] else [s[0]]) + Without(s[1..], drop)
  }

  lemma {:induction false} WithoutAppend(a: string, b: string, drop: set<char>)
    ensures Without(a + b, drop) == Without(a, drop) + Without(b, drop)
    decreases |a|
  {
    if a != [] {
      assert (a + b)[1..] == a[1..] + b;
      WithoutAppend(a[1..], b, drop);
    } else {
      assert a + b == b;
    }
  }

  lemma {:induction false} WithoutAll(s: string, drop: set<char>)
    requires forall c :: c in s ==> c in drop
    ensures Without(s, drop) == []
    decreases |s|
  {
    if s != [] {
      WithoutAll(s[1..], drop);
    }
  }

  /** Deleting other characters neither adds nor removes `c`. */
  lemma {:induction false} InWithout(s: string, drop: set<char>, c: char)
    requires c !in drop
    ensures c in Without(s, drop) <==> c in s
    decreases |s|
  {
    if s != [] {
      InWithout(s[1..], drop, c);
      assert s == [s[0]] + s[1..];
    }
  }

  /** Replacing a pattern by a replacement that both consist of dropped
      characters changes nothing once those characters are deleted: all other
      characters stay, in their order. */
  lemma {:induction false} ReplaceAllKeepsOthers(s: string, pat: string, rep: string, drop: set<char>)
    requires pat != []
    requires forall c :: c in pat ==> c in drop
    requires forall c :: c in rep ==> c in drop
    ensures Without(ReplaceAll(s, pat, rep), drop) == Without(s, drop)
    decreases |s|
  {
    if |s| < |pat| {
    } else if s[..|pat|] == pat {
      ReplaceAllKeepsOthers(s[|pat|..], pat, rep, drop);
      WithoutAppend(rep, ReplaceAll(s[|pat|..], pat, rep), drop);
      WithoutAll(rep, drop);
      assert s == pat + s[|pat|..];
      WithoutAppend(pat, s[|pat|..], drop);
      WithoutAll(pat, drop);
    } else {
      ReplaceAllKeepsOthers(s[1..], pat, rep, drop);
      WithoutAppend([s[0]], ReplaceAll(s[1..], pat, rep), drop);
      assert s == [s[0]] + s[1..];
      WithoutAppend([s[0]], s[1..], drop);
    }
  }

  /** Deleting `*` and ` from the input and from the output of the
      conversion gives the same text: every other character is kept, in
      its original order. */
  lemma FormatKeepsOtherCharacters(text: string)
    ensures Without(FormatForTelegram(text), Markers) == Without(text, Markers)
  {
    ReplaceAllKeepsOthers(text, "**", "*", Markers);
    ReplaceAllKeepsOthers(ReplaceAll(text, "**", "*"), "```", "`", Markers);
  }

  /** Text in which the pattern does not occur is left unchanged. */
  lemma {:induction false} ReplaceAllAbsent(s: string, pat: string, rep: string)
    requires pat != []
    requires !Occurs(s, pat)
    ensures ReplaceAll(s, pat, rep) == s
    decreases |s|
  {
    if |s| >= |pat| {
      assert !OccursAt(s, pat, 0);
      forall i | OccursAt(s[1..], pat, i)
        ensures false
      {
        assert s[1..][i..i + |pat|] == s[i + 1..i + 1 + |pat|];
        assert OccursAt(s, pat, i + 1);
      }
      ReplaceAllAbsent(s[1..], pat, rep);
      assert [s[0]] + s[1..] == s;
    }
  }

  /** A text holding neither `**` nor ``` is a fixed point of the conversion;
      in particular the conversion is idempotent on every output that has no
      such marker left. */
  lemma FormatFixedPoint(text: string)
    requires !Occurs(text, "**") && !Occurs(text, "```")
    ensures FormatForTelegram(text) == text
  {
    ReplaceAllAbsent(text, "**", "*");
    ReplaceAllAbsent(text, "```", "`");
  }

  /** Text without any `*` or ` is left unchanged. */
  lemma FormatWithoutMarkers(text: string)
    requires '*' !in text && '`' !in text
    ensures FormatForTelegram(text) == text
  {
    forall i | 0 <= i <= |text| ensures !OccursAt(text, "**", i) {
      if i + 2 <= |text| {
        assert text[i..i + 2][0] == text[i];
      }
    }
    forall i | 0 <= i <= |text| ensures !OccursAt(text, "```", i) {
      if i + 3 <= |text| {
        assert text[i..i + 3][0] == text[i];
      }
    }
    FormatFixedPoint(text);
  }

  /** An occurrence at the front is replaced and scanning resumes after it. */
  lemma ReplaceAllMatch(pat: string, rep: string, s: string)
    requires pat != []
    ensures ReplaceAll(pat + s, pat, rep) == rep + ReplaceAll(s, pat, rep)
  {
    assert (pat + s)[..|pat|] == pat;
    assert (pat + s)[|pat|..] == s;
  }

  /** A stretch that does not hold the pattern's first character is copied. */
  lemma {:induction false} ReplaceAllSkip(pat: string, rep: string, w: string, s: string)
    requires pat != []
    requires pat[0] !in w
    ensures ReplaceAll(w + s, pat, rep) == w + ReplaceAll(s, pat, rep)
    decreases |w|
  {
    if w != [] {
      var t := w + s;
      assert t[1..] == w[1..] + s;
      if |t| >= |pat| {
        assert t[..|pat|][0] == w[0];
      }
      ReplaceAllSkip(pat, rep, w[1..], s);
    } else {
      assert w + s == s;
    }
  }

  /** Two occurrences of the pattern between stretches that do not hold its
      first character are both replaced, and the stretches are copied. */
  lemma ReplaceAllPair(pat: string, rep: string, lead: string, mid: string, tail: string)
    requires pat != []
    requires pat[0] !in lead && pat[0] !in mid && pat[0] !in tail
    ensures ReplaceAll(lead + (pat + (mid + (pat + tail))), pat, rep) == lead + (rep + (mid + (rep + tail)))
  {
    assert ReplaceAll(tail, pat, rep) == tail by {
      ReplaceAllSkip(pat, rep, tail, "");
      assert tail + "" == tail;
    }
    assert ReplaceAll(pat + tail, pat, rep) == rep + tail by {
      ReplaceAllMatch(pat, rep, tail);
    }
    assert ReplaceAll(mid + (pat + tail), pat, rep) == mid + (rep + tail) by {
      ReplaceAllSkip(pat, rep, mid, pat + tail);
    }
    assert ReplaceAll(pat + (mid + (pat + tail)), pat, rep) == rep + (mid + (rep + tail)) by {
      ReplaceAllMatch(pat, rep, mid + (pat + tail));
    }
    ReplaceAllSkip(pat, rep, lead, pat + (mid + (pat + tail)));
  }

  /** Bold text, plain text and a fenced code span, in that order, come out
      with single markers and nothing else changed: "**bold** and ```code```"
      becomes "*bold* and `code`". */
  lemma FormatBoldAndCode(bold: string, between: string, code: string)
    requires '*' !in bold && '*' !in between && '*' !in code
    requires '`' !in bold && '`' !in between && '`' !in code
    ensures FormatForTelegram("**" + bold + "**" + between + "```" + code + "```")
         == "*" + bold + "*" + between + "`" + code + "`"
  {
    var star, fence := "**", "```";
    var rest := between + (fence + (code + fence));
    assert ReplaceAll("" + (star + (bold + (star + rest))), star, "*") == "" + ("*" + (bold + ("*" + rest))) by {
      ReplaceAllPair(star, "*", "", bold, rest);
    }
    var lead := "*" + (bold + ("*" + between));
    assert ReplaceAll(lead + (fence + (code + (fence + ""))), fence, "`") == lead + ("`" + (code + ("`" + ""))) by {
      ReplaceAllPair(fence, "`", lead, code, "");
    }
    assert "**" + bold + "**" + between + "```" + code + "```" == "" + (star + (bold + (star + rest)));
    assert "" + ("*" + (bold + ("*" + rest))) == lead + (fence + (code + (fence + "")));
    assert lead + ("`" + (code + ("`" + ""))) == "*" + bold + "*" + between + "`" + code + "`";
  }

  /** Replacement is textual, not a parser: three stars keep two, so the
      output may still hold `**` and a second pass changes it again. */
  lemma FormatNotIdempotent()
    ensures FormatForTelegram("***") == "**"
    ensures FormatForTelegram("**") == "*"
  {
  }
}
