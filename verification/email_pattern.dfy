/** The e-mail pattern `/[^\s@]+@[^\s@]+\.[^\s@]+$/` shared by the sign-up and
    forgot-password forms. It is anchored at the end only, and `test` looks for a
    match starting anywhere in the text. */
module EmailPattern {
  import opened Common

  /** A character of the class `[^\s@]`. */
  predicate Plain(c: char) {
    !IsSpace(c) && c != '@'
  }

  predicate AllPlain(s: string) {
    forall i :: 0 <= i < |s| ==> Plain(s[i])
  }

  /** The pattern matches the suffix `s[a..]`, with its '@' at index `p` and its
      '.' at index `q`: each `[^\s@]+` group is one or more plain characters. */
  ghost predicate MatchAt(s: string, a: int, p: int, q: int) {
    && 0 <= a < p && p + 1 < q && q + 1 < |s|
    && AllPlain(s[a..p]) && s[p] == '@'
    && AllPlain(s[p + 1..q]) && s[q] == '.'
    && AllPlain(s[q + 1..])
  }

  /** What `regex.test(s)` answers. */
  ghost predicate Matches(s: string) {
    exists a, p, q :: MatchAt(s, a, p, q)
  }

  /** Index of the last occurrence of `c` in `s`. */
  function LastIndexOf(s: string, c: char): (r: Option<nat>)
    ensures r.Some? ==> r.value < |s| && s[r.value] == c
                        && forall j :: r.value < j < |s| ==> s[j] != c
    ensures r.None? ==> forall j :: 0 <= j < |s| ==> s[j] != c
  {
    if s == [] then None
    else if s[|s| - 1] == c then Some(|s| - 1)
    else LastIndexOf(s[..|s| - 1], c)
  }

  /** A '.' that is neither the first nor the last character. */
  predicate HasInnerDot(d: string) {
    exists k :: 0 < k < |d| - 1 && d[k] == '.'
  }

  /** The decision the pattern makes, read off the last '@': the character before it is
      plain, the domain after it has no whitespace, and the domain has an inner '.'. */
  function Accepts(s: string): (r: bool)
    ensures r ==> '@' in s && |s| >= 5
  {
    match LastIndexOf(s, '@')
    case None => false
    case Some(p) => 0 < p && Plain(s[p - 1]) && AllPlain(s[p + 1..]) && HasInnerDot(s[p + 1..])
  }

  /** An accepted address matches, with the match starting just before the last '@'. */
  lemma AcceptsMatches(s: string)
    requires Accepts(s)
    ensures Matches(s)
  {
    var p := LastIndexOf(s, '@').value;
    var d := s[p + 1..];
    var k :| 0 < k < |d| - 1 && d[k] == '.';
    var q := p + 1 + k;
    assert s[p + 1..q] == d[..k];
    assert s[q + 1..] == d[k + 1..];
    assert s[p - 1..p] == [s[p - 1]];
    assert MatchAt(s, p - 1, p, q);
  }

  /** In a match, the '@' is the last one, and everything after it is plain except the
      '.' that splits the domain. */
  lemma MatchedAtIsLast(s: string, a: int, p: int, q: int)
    requires MatchAt(s, a, p, q)
    ensures LastIndexOf(s, '@') == Some(p)
    ensures forall j :: p < j < |s| && j != q ==> Plain(s[j])
  {
    forall j | p < j < |s| && j != q ensures Plain(s[j]) {
      if j < q {
        assert s[j] == s[p + 1..q][j - p - 1];
      } else {
        assert s[j] == s[q + 1..][j - q - 1];
      }
    }
  }

  /** A match is accepted. */
  lemma MatchesAccepted(s: string)
    requires Matches(s)
    ensures Accepts(s)
  {
    var a, p, q :| MatchAt(s, a, p, q);
    assert s[p - 1] == s[a..p][p - 1 - a];
    MatchedAtIsLast(s, a, p, q);
    var d := s[p + 1..];
    assert AllPlain(d) by {
      forall i | 0 <= i < |d| ensures Plain(d[i]) {
        assert d[i] == s[p + 1 + i];
      }
    }
    assert d[q - p - 1] == '.';
  }

  /** `Accepts` is exactly the regular expression's answer, in both directions. */
  lemma AcceptsIffMatches(s: string)
    ensures Accepts(s) <==> Matches(s)
  {
    if Accepts(s) {
      AcceptsMatches(s);
    }
    if Matches(s) {
      MatchesAccepted(s);
    }
  }

  /** The address form the sign-up form expects is accepted. */
  lemma AcceptsPlainAddress()
    ensures Accepts("a.b@mail.com")
  {
    var s := "a.b@mail.com";
    assert s[3] == '@' && forall j | 3 < j < |s| :: s[j] != '@';
    assert LastIndexOf(s, '@') == Some(3);
    assert s[4..][4] == '.';
  }

  /** Without a start anchor, text in front of the address is not inspected:
      a leading space or a second '@' still passes. */
  lemma AcceptsUnanchoredStart()
    ensures Accepts("x @a@b.co")
  {
    var s := "x @a@b.co";
    assert s[4] == '@' && forall j | 4 < j < |s| :: s[j] != '@';
    assert LastIndexOf(s, '@') == Some(4);
    assert s[5..][1] == '.';
  }

  /** A domain without an inner dot is refused. */
  lemma RefusesDotlessDomain()
    ensures !Accepts("user@localhost")
  {
    var s := "user@localhost";
    assert s[4] == '@' && forall j | 4 < j < |s| :: s[j] != '@';
    assert LastIndexOf(s, '@') == Some(4);
    assert forall k | 0 < k < |s[5..]| - 1 :: s[5..][k] != '.';
  }
}
