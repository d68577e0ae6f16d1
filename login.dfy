/** The login screen (app/login.tsx): the email check `/\S+@\S+\.\S+/.test(email)`
    and the order in which `handleLogin` validates and sets its error and
    loading state. */
module Login {

  /** The characters JavaScript's `\s` matches. */
  predicate IsSpace(c: char) {
    || '\t' <= c <= '\r' || c == ' ' || c == '\U{A0}' || c == '\U{1680}' || '\U{2000}' <= c <= '\U{200A}'
    || c == '\U{2028}' || c == '\U{2029}' || c == '\U{202F}' || c == '\U{205F}' || c == '\U{3000}' || c == '\U{FEFF}'
  }

  /** `\S`. */
  predicate NonSpace(c: char) {
    !IsSpace(c)
  }

  /** An '@' at index a with a non-space character right before it. */
  ghost predicate AtSign(s: string, a: int) {
    0 < a < |s| && s[a] == '@' && NonSpace(s[a - 1])
  }

  /** Every character after index a is a non-space. */
  ghost predicate NonSpaceAfter(s: string, a: nat) {
    forall k :: a < k < |s| ==> NonSpace(s[k])
  }

  /** The regex matches with its '@' at index a and its '.' at index d: a
      non-space before the '@', a non-empty run of non-spaces between them, and
      a non-space after the '.'. */
  ghost predicate MatchAt(s: string, a: int, d: int) {
    AtSign(s, a) && a + 1 < d && d + 1 < |s| && s[d] == '.' && NonSpace(s[d + 1])
    && forall k :: a < k < d ==> NonSpace(s[k])
  }

  /** The regex matches somewhere in s (it is not anchored, so only the
      characters of one match matter). */
  ghost predicate EmailPattern(s: string) {
    exists a, d :: MatchAt(s, a, d)
  }

  // The scanner below reads the email once, left to right, keeping the
  // furthest point of the pattern that the text read so far can reach.

  datatype ScanState =
    | Start    // nothing read, or the last character was a space
    | Word     // a run of non-spaces with no usable '@'
    | At       // the last character is an '@' with a non-space before it
    | Domain   // a non-empty run of non-spaces after such an '@'
    | Dot      // that run, ending in a '.' that follows at least one character
    | Matched  // the whole pattern has been seen

  function Step(st: ScanState, c: char): ScanState {
    if st == Matched then Matched
    else if IsSpace(c) then Start
    else match st
      case Start => Word
      case Word => if c == '@' then At else Word
      case At => Domain
      case Domain => if c == '.' then Dot else Domain
      case Dot => Matched
      case Matched => Matched
  }

  function Scan(s: string): ScanState
    decreases |s|
  {
    if |s| == 0 then Start else Step(Scan(s[..|s| - 1]), s[|s| - 1])
  }

  /** The last character is a usable '@'. */
  ghost predicate EndsAtSign(s: string) {
    AtSign(s, |s| - 1)
  }

  /** s ends inside a non-empty run of non-spaces after a usable '@'. */
  ghost predicate InDomain(s: string) {
    exists a :: AtSign(s, a) && a + 1 < |s| && NonSpaceAfter(s, a)
  }

  /** s ends in a '.' that could close the run after a usable '@'. */
  ghost predicate EndsAtDot(s: string) {
    |s| > 0 && s[|s| - 1] == '.' && exists a :: AtSign(s, a) && a + 2 < |s| && NonSpaceAfter(s, a)
  }

  /** What each state says about the text read so far. */
  ghost predicate Means(st: ScanState, s: string) {
    match st
    case Matched => EmailPattern(s)
    case Dot => !EmailPattern(s) && EndsAtDot(s)
    case Domain => !EmailPattern(s) && !EndsAtDot(s) && InDomain(s)
    case At => !EmailPattern(s) && !InDomain(s) && EndsAtSign(s)
    case Word => !EmailPattern(s) && !InDomain(s) && !EndsAtSign(s) && |s| > 0 && NonSpace(s[|s| - 1])
    case Start => !EmailPattern(s) && (|s| == 0 || IsSpace(s[|s| - 1]))
  }

  /** One more character completes the pattern exactly when it is a non-space after a closing '.'. */
  lemma PatternStep(s: string, c: char)
    ensures EmailPattern(s + [c]) <==> EmailPattern(s) || (EndsAtDot(s) && NonSpace(c))
  {
    var t := s + [c];
    if EmailPattern(s) {
      var a, d :| MatchAt(s, a, d);
      assert MatchAt(t, a, d) by {
        assert forall k :: 0 <= k < |s| ==> t[k] == s[k];
      }
    }
    if EndsAtDot(s) && NonSpace(c) {
      var a :| AtSign(s, a) && a + 2 < |s| && NonSpaceAfter(s, a);
      var d := |s| - 1;
      assert MatchAt(t, a, d) by {
        assert forall k :: 0 <= k < |s| ==> t[k] == s[k];
        assert t[d + 1] == c;
      }
    }
    if EmailPattern(t) && !EmailPattern(s) {
      var a, d :| MatchAt(t, a, d);
      if d + 1 < |s| {
        assert MatchAt(s, a, d) by {
          assert forall k :: 0 <= k < |s| ==> t[k] == s[k];
        }
        assert false;
      }
      assert d == |s| - 1;
      assert forall k :: 0 <= k < |s| ==> t[k] == s[k];
      assert AtSign(s, a) && NonSpaceAfter(s, a);
    }
  }

  /** One more character leaves the text in the run after a usable '@' exactly
      when it is a non-space and the text was in that run or just after the '@'. */
  lemma DomainStep(s: string, c: char)
    ensures InDomain(s + [c]) <==> NonSpace(c) && (InDomain(s) || EndsAtSign(s))
    ensures EndsAtDot(s + [c]) <==> c == '.' && InDomain(s)
    ensures EndsAtSign(s + [c]) <==> c == '@' && |s| > 0 && NonSpace(s[|s| - 1])
  {
    var t := s + [c];
    assert forall k :: 0 <= k < |s| ==> t[k] == s[k];
    if InDomain(t) {
      var a :| AtSign(t, a) && a + 1 < |t| && NonSpaceAfter(t, a);
      assert t[|t| - 1] == c;
      if a == |s| - 1 {
        assert EndsAtSign(s);
      } else {
        assert AtSign(s, a) && NonSpaceAfter(s, a);
      }
    }
    if NonSpace(c) && InDomain(s) {
      var a :| AtSign(s, a) && a + 1 < |s| && NonSpaceAfter(s, a);
      assert AtSign(t, a) && NonSpaceAfter(t, a);
    }
    if NonSpace(c) && EndsAtSign(s) {
      assert AtSign(t, |s| - 1) && NonSpaceAfter(t, |s| - 1);
    }
    if EndsAtDot(t) {
      var a :| AtSign(t, a) && a + 2 < |t| && NonSpaceAfter(t, a);
      assert AtSign(s, a) && NonSpaceAfter(s, a);
    }
    if c == '.' && InDomain(s) {
      var a :| AtSign(s, a) && a + 1 < |s| && NonSpaceAfter(s, a);
      assert AtSign(t, a) && NonSpaceAfter(t, a);
    }
  }

  /** Each step of the scanner keeps the meaning of its state. */
  lemma StepMeans(st: ScanState, s: string, c: char)
    requires Means(st, s)
    ensures Means(Step(st, c), s + [c])
  {
    var t := s + [c];
    PatternStep(s, c);
    DomainStep(s, c);
    assert t[|t| - 1] == c;
    if st != Matched && st != Dot {
      assert !EndsAtDot(s);
    }
  }

  /** The scanner's state after the whole text means what it says. */
  lemma {:induction false} ScanMeans(s: string)
    ensures Means(Scan(s), s)
    decreases |s|
  {
    if |s| > 0 {
      var p := s[..|s| - 1];
      ScanMeans(p);
      StepMeans(Scan(p), p, s[|s| - 1]);
      assert p + [s[|s| - 1]] == s;
    }
  }

  /** `validateEmail(email)`: true exactly when the regex matches. */
  function ValidateEmail(email: string): (r: bool)
    ensures r <==> EmailPattern(email)
  {
    ScanMeans(email);
    Scan(email) == Matched
  }

  const MissingCredentials := "Please enter both email and password."
  const InvalidEmail := "Please enter a valid email address."

  /** The error `handleLogin` leaves: the presence check comes first. */
  function LoginError(email: string, password: string): string {
    if email == "" || password == "" then MissingCredentials
    else if !ValidateEmail(email) then InvalidEmail
    else ""
  }

  /** The order of the checks: a missing email or password is reported as such,
      never as a malformed email; the format error means both are present and
      the pattern fails; an empty error means both are present and the pattern
      holds. */
  lemma LoginErrorCases(email: string, password: string)
    ensures email == "" || password == "" <==> LoginError(email, password) == MissingCredentials
    ensures LoginError(email, password) == InvalidEmail <==> email != "" && password != "" && !EmailPattern(email)
    ensures LoginError(email, password) == "" <==> email != "" && password != "" && EmailPattern(email)
  {
  }

  /** Presence is only a non-empty test: a password of spaces is accepted, and a
      missing '.' after the '@' is a format error. */
  lemma LoginExamples()
    ensures LoginError("a@b.co", "   ") == ""
    ensures LoginError("a@bco", "secret") == InvalidEmail
    ensures LoginError("", "secret") == MissingCredentials
  {
    var good, bad := "a@b.co", "a@bco";
    assert MatchAt(good, 1, 3);
    assert forall d :: 0 <= d < |bad| ==> bad[d] != '.';
    assert !EmailPattern(bad);
  }

  /** The screen's state. */
  class LoginScreen {
    var email: string
    var password: string
    var error: string
    var loading: bool
    var route: string

    constructor()
      ensures email == "" && password == "" && error == "" && !loading && route == ""
    {
      email, password, error, loading, route := "", "", "", false, "";
    }

    method ChangeEmail(text: string)
      modifies this
      ensures email == text && password == old(password) && error == old(error) && loading == old(loading) && route == old(route)
    {
      email := text;
    }

    method ChangePassword(text: string)
      modifies this
      ensures password == text && email == old(email) && error == old(error) && loading == old(loading) && route == old(route)
    {
      password := text;
    }

    /** `handleLogin`: clear the error, check presence, then the format; only a
        passing attempt starts loading (the timer is the separate method below). */
    method HandleLogin()
      modifies this
      ensures error == LoginError(email, password)
      ensures loading == (if error == "" then true else old(loading))
      ensures email == old(email) && password == old(password) && route == old(route)
    {
      error := "";
      if email == "" || password == "" {
        error := MissingCredentials;
        return;
      }
      if !ValidateEmail(email) {
        error := InvalidEmail;
        return;
      }
      loading := true;
    }

    /** The `setTimeout` callback: stop loading and go to the recents tab. */
    method LoginTimerFires()
      modifies this
      ensures !loading && route == "/(tabs)/recents"
      ensures email == old(email) && password == old(password) && error == old(error)
    {
      loading := false;
      route := "/(tabs)/recents";
    }
  }
}
