/**
 * The e-mail test of the events page (js/events.js, `isValidEmail`): the
 * regular expression `^[^\s@]+@[^\s@]+\.[^\s@]+$` and the plain conditions
 * it amounts to.
 */
module EmailCheck {
  import opened Text

  /** A character `[^\s@]` matches. */
  predicate PlainChar(c: char) {
    !IsJsSpace(c) && c != '@'
  }

  /** `[^\s@]+` matches the whole of `x`. */
  predicate Plain(x: string) {
    |x| > 0 && forall i :: 0 <= i < |x| ==> PlainChar(x[i])
  }

  /**
   * `isValidEmail`: the regular expression matches the whole string, with
   * the `@` at position `at` and the `.` at position `dot`.
   */
  predicate IsValidEmail(email: string) {
    exists at, dot :: 0 <= at < dot < |email| && email[at] == '@' && email[dot] == '.'
      && Plain(email[..at]) && Plain(email[at + 1..dot]) && Plain(email[dot + 1..])
  }

  /** No whitespace, a single `@` with something before it, and a `.` inside what follows it. */
  predicate WellFormed(email: string) {
    && (forall i :: 0 <= i < |email| ==> !IsJsSpace(email[i]))
    && (exists at :: 0 < at < |email| && email[at] == '@' && OnlyAt(email, at) && DotInside(email, at))
  }

  /** The only `@` is at `at`. */
  predicate OnlyAt(email: string, at: int) {
    forall j :: 0 <= j < |email| && email[j] == '@' ==> j == at
  }

  /** A `.` with at least one character on each side follows position `at`. */
  predicate DotInside(email: string, at: int) {
    exists dot :: 0 <= at + 1 < dot < |email| - 1 && email[dot] == '.'
  }

  /** A slice is `Plain` exactly when it is non-empty and each of its characters is plain. */
  lemma PlainSlice(s: string, lo: int, hi: int)
    requires 0 <= lo <= hi <= |s|
    ensures Plain(s[lo..hi]) <==> lo < hi && forall i :: lo <= i < hi ==> PlainChar(s[i])
  {
    if lo < hi && forall i :: lo <= i < hi ==> PlainChar(s[i]) {
      forall k | 0 <= k < hi - lo ensures PlainChar(s[lo..hi][k]) {
        assert s[lo..hi][k] == s[lo + k];
      }
    }
    if Plain(s[lo..hi]) {
      forall i | lo <= i < hi ensures PlainChar(s[i]) {
        assert s[i] == s[lo..hi][i - lo];
      }
    }
  }

  /** What the regular expression accepts is well formed. */
  lemma ValidIsWellFormed(email: string)
    requires IsValidEmail(email)
    ensures WellFormed(email)
  {
    var at, dot :| 0 <= at < dot < |email| && email[at] == '@' && email[dot] == '.'
      && Plain(email[..at]) && Plain(email[at + 1..dot]) && Plain(email[dot + 1..]);
    PlainSlice(email, 0, at);
    PlainSlice(email, at + 1, dot);
    PlainSlice(email, dot + 1, |email|);
    assert email[..at] == email[0..at];
    assert forall i :: 0 <= i < |email| && i != at && i != dot ==> PlainChar(email[i]);
    assert DotInside(email, at);
  }

  /** A well-formed address is accepted by the regular expression. */
  lemma WellFormedIsValid(email: string)
    requires WellFormed(email)
    ensures IsValidEmail(email)
  {
    var at :| 0 < at < |email| && email[at] == '@' && OnlyAt(email, at) && DotInside(email, at);
    var dot :| at + 1 < dot < |email| - 1 && email[dot] == '.';
    PlainSlice(email, 0, at);
    PlainSlice(email, at + 1, dot);
    PlainSlice(email, dot + 1, |email|);
    assert email[..at] == email[0..at];
  }

  /** The regular expression accepts exactly the well-formed addresses. */
  lemma IsValidEmailIff(email: string)
    ensures IsValidEmail(email) <==> WellFormed(email)
  {
    if IsValidEmail(email) {
      ValidIsWellFormed(email);
    }
    if WellFormed(email) {
      WellFormedIsValid(email);
    }
  }

  /** Extra dots in the domain are allowed. */
  lemma EmailAccepted()
    ensures IsValidEmail("a@b.c")
    ensures IsValidEmail("a@b..c")
  {
    assert "a@b.c"[1] == '@' && "a@b.c"[3] == '.';
    assert Plain("a@b.c"[..1]) && Plain("a@b.c"[2..3]) && Plain("a@b.c"[4..]);
    assert "a@b..c"[1] == '@' && "a@b..c"[4] == '.';
    assert Plain("a@b..c"[..1]) && Plain("a@b..c"[2..4]) && Plain("a@b..c"[5..]);
  }

  /** An empty local part, a dot at the end of the domain or no dot at all is rejected. */
  lemma EmailRejected()
    ensures !IsValidEmail("@b.c")
    ensures !IsValidEmail("a@b.")
    ensures !IsValidEmail("a@b")
  {
    IsValidEmailIff("@b.c");
    IsValidEmailIff("a@b.");
    IsValidEmailIff("a@b");
  }

  /** Whitespace anywhere and a second `@` are rejected. */
  lemma EmailRejectedChars()
    ensures !IsValidEmail("a b@c.d")
    ensures !IsValidEmail("a@b@c.d")
  {
    IsValidEmailIff("a b@c.d");
    assert IsJsSpace("a b@c.d"[1]);
    IsValidEmailIff("a@b@c.d");
    assert "a@b@c.d"[1] == '@' && "a@b@c.d"[3] == '@';
  }
}
