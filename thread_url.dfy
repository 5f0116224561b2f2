/** The thread-link check of 4get.js `validateThreadUrl`: the unanchored
    regular expression `https?://boards.4chan.org/\S+/thread/\d+/?\S*`
    with JavaScript's meaning of `.`, `\S` and `\d`. The expression is
    stated as "some substring matches" and decided by a scan. */
module ThreadUrl {

  /** ECMAScript line terminators: LF, CR, LS and PS. */
  predicate IsLineTerminator(c: char) {
    var n := c as int;
    n == 0x0A || n == 0x0D || n == 0x2028 || n == 0x2029
  }

  /** ECMAScript white space and line terminators, the characters `\s`
      matches and `\S` refuses. */
  predicate IsSpace(c: char) {
    var n := c as int;
    (0x09 <= n <= 0x0D) || n == 0x20 || n == 0xA0 || n == 0x1680
    || (0x2000 <= n <= 0x200A) || n == 0x2028 || n == 0x2029
    || n == 0x202F || n == 0x205F || n == 0x3000 || n == 0xFEFF
  }

  /** `\d`. */
  predicate IsDigit(c: char) {
    '0' <= c <= '9'
  }

  /** `.` outside the dotAll mode, on one character (the code matches one
      UTF-16 code unit, half of a character outside the Basic Multilingual
      Plane). */
  predicate IsDot(c: char) {
    !IsLineTerminator(c)
  }

  /** The scheme prefix `HeadAt` expects. */
  function Scheme(secure: bool): string {
    if secure then "https://boards" else "http://boards"
  }

  /** The scheme and host part `http://boards.4chan.org/`, or with
      `https`, starts at `i`; each `.` of the host matches any character but
      a line terminator. */
  predicate HeadAt(s: string, i: nat, secure: bool) {
    var scheme := Scheme(secure);
    var n := i + |scheme|;
    n + 11 <= |s|
    && s[i..n] == scheme
    && IsDot(s[n])
    && s[n + 1..n + 6] == "4chan"
    && IsDot(s[n + 6])
    && s[n + 7..n + 11] == "org/"
  }

  /** Length of the head that `HeadAt` recognises. */
  function HeadLength(secure: bool): (n: nat)
    ensures n == if secure then 25 else 24
  {
    |Scheme(secure)| + 11
  }

  /** `/thread/` followed by a digit starts at `k`. */
  predicate MarkerAt(s: string, k: nat) {
    k + 8 < |s| && s[k..k + 8] == "/thread/" && IsDigit(s[k + 8])
  }

  /** No white space in `s[j..k]`. */
  predicate NoSpaceIn(s: string, j: nat, k: nat)
    requires j <= k <= |s|
  {
    forall t :: j <= t < k ==> !IsSpace(s[t])
  }

  /** `\S+/thread/\d` matches from `j`: a non-empty run free of white space,
      then the marker. The rest of the expression (`\d*`, then `/?`, then `\S*`) can match
      the empty string, so it adds no condition. */
  ghost predicate BodyAt(s: string, j: nat) {
    exists k :: j < k <= |s| && NoSpaceIn(s, j, k) && MarkerAt(s, k)
  }

  /** The expression matches a substring starting at `i`. */
  ghost predicate MatchAt(s: string, i: nat) {
    (HeadAt(s, i, false) && BodyAt(s, i + HeadLength(false)))
    || (HeadAt(s, i, true) && BodyAt(s, i + HeadLength(true)))
  }

  /** `RegExp.prototype.test`: some substring matches. */
  ghost predicate Matches(s: string) {
    exists i :: 0 <= i <= |s| && MatchAt(s, i)
  }

  /** Looks for the marker at `k` or later while the run of non-white-space
      that started at `j` lasts. */
  function FindMarker(s: string, j: nat, k: nat): (found: bool)
    requires j < k <= |s|
    requires NoSpaceIn(s, j, k)
    ensures found <==> exists k' :: k <= k' <= |s| && NoSpaceIn(s, j, k') && MarkerAt(s, k')
    decreases |s| - k
  {
    if MarkerAt(s, k) then true
    else if k < |s| && !IsSpace(s[k]) then
      var found := FindMarker(s, j, k + 1);
      assert found ==> exists k' :: k <= k' <= |s| && NoSpaceIn(s, j, k') && MarkerAt(s, k');
      found
    else
      assert forall k' :: k < k' <= |s| ==> !NoSpaceIn(s, j, k') by {
        forall k' | k < k' <= |s| ensures !NoSpaceIn(s, j, k') {
          assert IsSpace(s[k]);
        }
      }
      false
  }

  /** Decides `BodyAt`. */
  function BodyFrom(s: string, j: nat): (found: bool)
    ensures found <==> BodyAt(s, j)
  {
    if j < |s| && !IsSpace(s[j]) then
      assert NoSpaceIn(s, j, j + 1);
      FindMarker(s, j, j + 1)
    else
      assert forall k :: j < k <= |s| ==> !NoSpaceIn(s, j, k) by {
        forall k | j < k <= |s| ensures !NoSpaceIn(s, j, k) {
          assert IsSpace(s[j]);
        }
      }
      false
  }

  /** Decides `MatchAt`. */
  function MatchFrom(s: string, i: nat): (found: bool)
    ensures found <==> MatchAt(s, i)
  {
    (HeadAt(s, i, false) && BodyFrom(s, i + HeadLength(false)))
    || (HeadAt(s, i, true) && BodyFrom(s, i + HeadLength(true)))
  }

  /** Decides whether a match starts at `i` or later. */
  function SearchFrom(s: string, i: nat): (found: bool)
    requires i <= |s|
    ensures found <==> exists i' :: i <= i' <= |s| && MatchAt(s, i')
    decreases |s| - i
  {
    if MatchFrom(s, i) then true
    else if i < |s| then SearchFrom(s, i + 1)
    else false
  }

  /** `validateThreadUrl`: accepts exactly the strings the expression
      matches somewhere. */
  function ValidateThreadUrl(url: string): (ok: bool)
    ensures ok <==> Matches(url)
  {
    SearchFrom(url, 0)
  }

  /** The head `<scheme>boards<c1>4chan<c2>org/`. */
  function Head(secure: bool, c1: char, c2: char): (h: string)
    ensures |h| == HeadLength(secure)
  {
    Scheme(secure) + [c1] + "4chan" + [c2] + "org/"
  }

  /** A head assembled from its pieces is recognised. */
  lemma HeadOf(secure: bool, c1: char, c2: char, rest: string)
    requires IsDot(c1) && IsDot(c2)
    ensures HeadAt(Head(secure, c1, c2) + rest, 0, secure)
  {
    var s := Head(secure, c1, c2) + rest;
    var n := |Scheme(secure)|;
    assert s[0..n] == Scheme(secure);
    assert s[n] == c1;
    assert s[n + 1..n + 6] == "4chan";
    assert s[n + 6] == c2;
    assert s[n + 7..n + 11] == "org/";
  }

  /** A board, `/thread/` and a digit assembled after a prefix make a body
      match at the end of the prefix. */
  lemma BodyOf(p: string, board: string, d: char, rest: string)
    requires IsDigit(d)
    requires |board| > 0 && forall t :: 0 <= t < |board| ==> !IsSpace(board[t])
    ensures BodyAt(p + (board + "/thread/" + [d] + rest), |p|)
  {
    var s := p + (board + "/thread/" + [d] + rest);
    var k := |p| + |board|;
    assert s[k..k + 8] == "/thread/";
    assert s[k + 8] == d;
    assert MarkerAt(s, k);
    assert NoSpaceIn(s, |p|, k) by {
      forall t | |p| <= t < k ensures !IsSpace(s[t]) {
        assert s[t] == board[t - |p|];
      }
    }
  }

  /** Every link of the thread-link shape of the usage example (4get.js:481)
      is accepted: scheme and host, a
      non-empty board free of white space, `/thread/`, and a thread id that
      starts with a digit, followed by anything (a slug, say). */
  lemma ThreadLinkAccepted(secure: bool, c1: char, c2: char, board: string, d: char, rest: string)
    requires IsDot(c1) && IsDot(c2) && IsDigit(d)
    requires |board| > 0 && forall t :: 0 <= t < |board| ==> !IsSpace(board[t])
    ensures ValidateThreadUrl(Head(secure, c1, c2) + (board + "/thread/" + [d] + rest))
  {
    HeadOf(secure, c1, c2, board + "/thread/" + [d] + rest);
    BodyOf(Head(secure, c1, c2), board, d, rest);
    assert MatchAt(Head(secure, c1, c2) + (board + "/thread/" + [d] + rest), 0);
  }

  /** The usage example `http://boards.4chan.org/wg/thread/6581245` is a
      thread link. */
  lemma UsageExampleAccepted()
    ensures ValidateThreadUrl(Head(false, '.', '.') + ("wg" + "/thread/" + "6" + "581245"))
  {
    ThreadLinkAccepted(false, '.', '.', "wg", '6', "581245");
  }

  /** The secure form with a slug,
      `https://boards.4chan.org/wg/thread/123456/my-slug`, is a thread link
      too. */
  lemma SecureSluggedAccepted()
    ensures ValidateThreadUrl(Head(true, '.', '.') + ("wg" + "/thread/" + "1" + "23456/my-slug"))
  {
    ThreadLinkAccepted(true, '.', '.', "wg", '1', "23456/my-slug");
  }

  /** A string with no `/thread/` followed by a digit (a missing thread
      id) is refused. */
  lemma MissingThreadIdRefused(s: string)
    requires forall k :: 0 <= k <= |s| ==> !MarkerAt(s, k)
    ensures !ValidateThreadUrl(s)
  {
  }

  /** The host name `4chan` starts at `k`. */
  predicate HostNameAt(s: string, k: nat) {
    k + 5 <= |s| && s[k..k + 5] == "4chan"
  }

  /** A string without the text `4chan` anywhere (another host) is
      refused. */
  lemma OtherHostRefused(s: string)
    requires forall k :: 0 <= k <= |s| ==> !HostNameAt(s, k)
    ensures !ValidateThreadUrl(s)
  {
    forall i | 0 <= i <= |s| ensures !HeadAt(s, i, false) && !HeadAt(s, i, true) {
      HeadHasHost(s, i, false);
      HeadHasHost(s, i, true);
    }
  }

  /** A head has the host name one character after its scheme. */
  lemma HeadHasHost(s: string, i: nat, secure: bool)
    ensures HeadAt(s, i, secure) ==> HostNameAt(s, i + |Scheme(secure)| + 1)
  {
  }

  /** Shift of `HeadAt` under a prefix. */
  lemma HeadShift(p: string, s: string, q: string, i: nat, secure: bool)
    requires HeadAt(s, i, secure)
    ensures HeadAt(p + s + q, |p| + i, secure)
  {
    var t := p + s + q;
    var n := i + |Scheme(secure)|;
    assert t[|p| + i..|p| + n] == s[i..n];
    assert t[|p| + n] == s[n];
    assert t[|p| + n + 1..|p| + n + 6] == s[n + 1..n + 6];
    assert t[|p| + n + 6] == s[n + 6];
    assert t[|p| + n + 7..|p| + n + 11] == s[n + 7..n + 11];
  }

  /** Shift of `BodyAt` under a prefix. */
  lemma BodyShift(p: string, s: string, q: string, j: nat)
    requires BodyAt(s, j)
    ensures BodyAt(p + s + q, |p| + j)
  {
    var t := p + s + q;
    var k :| j < k <= |s| && NoSpaceIn(s, j, k) && MarkerAt(s, k);
    assert t[|p| + k..|p| + k + 8] == s[k..k + 8];
    assert t[|p| + k + 8] == s[k + 8];
    assert MarkerAt(t, |p| + k);
    assert NoSpaceIn(t, |p| + j, |p| + k) by {
      forall u | |p| + j <= u < |p| + k ensures !IsSpace(t[u]) {
        assert t[u] == s[u - |p|];
      }
    }
  }

  /** The expression is unanchored: text before or after a thread link
      does not make it invalid. */
  lemma UnanchoredMatch(p: string, s: string, q: string)
    requires ValidateThreadUrl(s)
    ensures ValidateThreadUrl(p + s + q)
  {
    var i :| 0 <= i <= |s| && MatchAt(s, i);
    if HeadAt(s, i, false) && BodyAt(s, i + HeadLength(false)) {
      HeadShift(p, s, q, i, false);
      BodyShift(p, s, q, i + HeadLength(false));
    } else {
      HeadShift(p, s, q, i, true);
      BodyShift(p, s, q, i + HeadLength(true));
    }
    assert MatchAt(p + s + q, |p| + i);
  }
}
