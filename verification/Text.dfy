/** The white space Go's strings.TrimSpace and bytes.TrimSpace strip. */
module Text {

  predicate IsSpace(c: char) {
    || c in {'\t', '\n', '\U{b}', '\U{c}', '\r', ' ', '\U{85}', '\U{a0}', '\U{1680}', '\U{2028}', '\U{2029}', '\U{202f}', '\U{205f}', '\U{3000}'}
    || '\U{2000}' <= c <= '\U{200a}'
  }

  function TrimLeft(s: string): string {
    if s != "" && IsSpace(s[0]) then TrimLeft(s[1..]) else s
  }

  function TrimRight(s: string): string {
    if s != "" && IsSpace(s[|s| - 1]) then TrimRight(s[..|s| - 1]) else s
  }

  function Trim(s: string): string {
    TrimRight(TrimLeft(s))
  }

  /** Nothing to strip at either end. */
  predicate Trimmed(s: string) {
    s == "" || (!IsSpace(s[0]) && !IsSpace(s[|s| - 1]))
  }

  /** Tabs, line ends and blanks go, from both ends and however many; what is between them stays. */
  lemma TrimStrips(before: string, s: string, after: string)
    requires (forall c :: c in before ==> c in "\t\n\r ") && (forall c :: c in after ==> c in "\t\n\r ")
    requires s != "" && s[0] !in "\t\n\r " && s[|s| - 1] !in "\t\n\r " && Trimmed(s)
    ensures Trim(before + s + after) == s
  {
    TrimsLeft(before, s + after);
    assert before + s + after == before + (s + after) && (s + after)[0] == s[0];
    TrimsRight(s, after);
  }

  lemma {:induction false} TrimsLeft(before: string, rest: string)
    requires (forall c :: c in before ==> c in "\t\n\r ") && rest != "" && !IsSpace(rest[0])
    ensures TrimLeft(before + rest) == rest
  {
    if before == "" {
      assert before + rest == rest;
    } else {
      assert before[0] in before && (before + rest)[1..] == before[1..] + rest;
      TrimsLeft(before[1..], rest);
    }
  }

  lemma {:induction false} TrimsRight(s: string, after: string)
    requires (forall c :: c in after ==> c in "\t\n\r ") && s != "" && !IsSpace(s[|s| - 1])
    ensures TrimRight(s + after) == s
  {
    if after == "" {
      assert s + after == s;
    } else {
      var n := |after| - 1;
      assert after[n] in after && (s + after)[|s + after| - 1] == after[n] && (s + after)[..|s + after| - 1] == s + after[..n];
      TrimsRight(s, after[..n]);
    }
  }
}
