// Character classes and trimming, as the standard library's string methods define them.
module Text {
  // The characters of the Unicode property White_Space.
  predicate IsSpace(c: char) {
    || '\t' <= c <= '\r' || c == ' ' || c == '\U{85}' || c == '\U{A0}' || c == '\U{1680}'
    || '\U{2000}' <= c <= '\U{200A}' || c == '\U{2028}' || c == '\U{2029}' || c == '\U{202F}'
    || c == '\U{205F}' || c == '\U{3000}'
  }

  function TrimStart(s: string): string {
    if s != "" && IsSpace(s[0]) then TrimStart(s[1..]) else s
  }

  function TrimEnd(s: string): string {
    if s != "" && IsSpace(s[|s| - 1]) then TrimEnd(s[..|s| - 1]) else s
  }

  function Trim(s: string): string {
    TrimEnd(TrimStart(s))
  }

  function Lower(c: char): char {
    if 'A' <= c <= 'Z' then c - 'A' + 'a' else c
  }

  predicate IsBlank(s: string) {
    forall c | c in s :: IsSpace(c)
  }

  // Text that neither begins nor ends with a space.
  predicate IsTight(s: string) {
    s != "" ==> !IsSpace(s[0]) && !IsSpace(s[|s| - 1])
  }

  lemma {:induction false} TrimStartSkips(pre: string, s: string)
    requires IsBlank(pre) && (s != "" ==> !IsSpace(s[0]))
    ensures TrimStart(pre + s) == s
    decreases |pre|
  {
    if pre == "" {
      assert pre + s == s;
    } else {
      assert pre[0] in pre && (pre + s)[1..] == pre[1..] + s;
      TrimStartSkips(pre[1..], s);
    }
  }

  lemma {:induction false} TrimEndSkips(s: string, post: string)
    requires IsBlank(post) && (s != "" ==> !IsSpace(s[|s| - 1]))
    ensures TrimEnd(s + post) == s
    decreases |post|
  {
    var n := |post| - 1;
    if post == "" {
      assert s + post == s;
    } else {
      assert post[n] in post && (s + post)[..|s + post| - 1] == s + post[..n];
      TrimEndSkips(s, post[..n]);
    }
  }

  lemma {:induction false} TrimStartSplits(s: string) returns (pre: string)
    ensures s == pre + TrimStart(s) && IsBlank(pre) && (TrimStart(s) != "" ==> !IsSpace(TrimStart(s)[0]))
    decreases |s|
  {
    pre := "";
    if s != "" && IsSpace(s[0]) {
      var rest := TrimStartSplits(s[1..]);
      pre := [s[0]] + rest;
    }
  }

  lemma {:induction false} TrimEndSplits(s: string) returns (post: string)
    ensures s == TrimEnd(s) + post && IsBlank(post)
    ensures TrimEnd(s) != "" ==> !IsSpace(TrimEnd(s)[|TrimEnd(s)| - 1])
    decreases |s|
  {
    var n := |s| - 1;
    post := "";
    if s != "" && IsSpace(s[n]) {
      var rest := TrimEndSplits(s[..n]);
      post := rest + [s[n]];
      assert s == s[..n] + [s[n]] && TrimEnd(s) == TrimEnd(s[..n]);
    }
  }

  // Trimming takes the blanks off both ends, and nothing else: the result is the one tight
  // text that blanks surround.
  lemma TrimmedIff(s: string, t: string)
    ensures Trim(s) == t <==> IsTight(t) && exists pre, post :: IsBlank(pre) && IsBlank(post) && s == pre + t + post
  {
    var pre := TrimStartSplits(s);
    var post := TrimEndSplits(TrimStart(s));
    assert s == pre + Trim(s) + post;
    if Trim(s) == t && t != "" {
      assert t[0] == TrimStart(s)[0];
    }
    if before, after :| IsBlank(before) && IsBlank(after) && s == before + t + after && IsTight(t) {
      if t == "" {
        BlankIsTrimmed(before, after);
      } else {
        assert before + t + after == before + (t + after);
        TrimStartSkips(before, t + after);
        TrimEndSkips(t, after);
      }
    }
  }

  lemma BlankIsTrimmed(before: string, after: string)
    requires IsBlank(before) && IsBlank(after)
    ensures Trim(before + "" + after) == ""
  {
    assert before + "" + after == (before + after) + "" && IsBlank(before + after);
    TrimStartSkips(before + after, "");
  }
}
