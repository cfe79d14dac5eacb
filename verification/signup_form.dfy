/** Step one of signup: the username / email / password form, its validation and its hand-off. */
module SignupForm {
  import opened Options
  import opened Text

  datatype Field = Username | Email | Password

  const UsernameError := "Username must be at least 3 characters"
  const EmailError := "Please enter a valid email address"
  const PasswordError := "Password must be at least 6 characters"

  function ErrorMessage(f: Field): string {
    match f
    case Username => UsernameError
    case Email => EmailError
    case Password => PasswordError
  }

  /** A character of the regular-expression class `[^\s@]`. */
  predicate Plain(c: char) {
    !IsJsSpace(c) && c != '@'
  }

  predicate AllPlain(s: string) {
    forall i :: 0 <= i < |s| ==> Plain(s[i])
  }

  /** A match of `[^\s@]+`. */
  predicate PlainRun(s: string) {
    |s| > 0 && AllPlain(s)
  }

  lemma AllPlainSlice(s: string, i: nat, j: nat)
    requires AllPlain(s) && i <= j <= |s|
    ensures AllPlain(s[i..j])
  {
    forall k | 0 <= k < j - i ensures Plain(s[i..j][k]) {
      assert s[i..j][k] == s[i + k];
    }
  }

  /** What `/^[^\s@]+@[^\s@]+\.[^\s@]+$/` matches: a run, '@', a run, '.', a run. */
  ghost predicate MatchesEmailRegex(s: string) {
    exists a, d :: RegexSplit(s, a, d)
  }

  /** The match that puts the '@' at `a` and the '.' at `d`. */
  predicate RegexSplit(s: string, a: int, d: int) {
    0 <= a < d < |s| && s[a] == '@' && s[d] == '.' &&
    PlainRun(s[..a]) && PlainRun(s[a + 1..d]) && PlainRun(s[d + 1..])
  }

  /** The email shape check, by scanning: the part before the first '@' is a run, and the part after
      it has no white space or '@' and a '.' neither first nor last. */
  predicate IsEmailShape(s: string) {
    match FirstIndexOf(s, '@')
    case None => false
    case Some(a) =>
      var rest := s[a + 1..];
      PlainRun(s[..a]) && |rest| >= 3 && AllPlain(rest) && '.' in rest[1..|rest| - 1]
  }

  lemma ShapeImpliesRegex(s: string)
    requires IsEmailShape(s)
    ensures MatchesEmailRegex(s)
  {
    var a := FirstIndexOf(s, '@').value;
    var rest := s[a + 1..];
    var mid := rest[1..|rest| - 1];
    var m :| 0 <= m < |mid| && mid[m] == '.';
    var k := m + 1;
    var d := a + 1 + k;
    assert s[d] == rest[k];
    assert s[a + 1..d] == rest[..k];
    assert s[d + 1..] == rest[k + 1..];
    AllPlainSlice(rest, 0, k);
    AllPlainSlice(rest, k + 1, |rest|);
    assert RegexSplit(s, a, d);
  }

  lemma RegexImpliesShape(s: string)
    requires MatchesEmailRegex(s)
    ensures IsEmailShape(s)
  {
    var a, d :| RegexSplit(s, a, d);
    SplitIsShape(s, a, d);
  }

  lemma SplitIsShape(s: string, a: int, d: int)
    requires RegexSplit(s, a, d)
    ensures IsEmailShape(s)
  {
    FirstAtAfterRun(s, a);
    var rest := s[a + 1..];
    var left, right := s[a + 1..d], s[d + 1..];
    assert rest == left + [s[d]] + right;
    JoinedRunsPlain(left, s[d], right);
    assert rest[1..|rest| - 1][|left| - 1] == '.';
  }

  /** An '@' after a run is the first '@'. */
  lemma FirstAtAfterRun(s: string, a: int)
    requires 0 <= a < |s| && s[a] == '@' && AllPlain(s[..a])
    ensures FirstIndexOf(s, '@') == Some(a)
  {
    forall k | 0 <= k < a ensures s[k] != '@' {
      assert s[..a][k] == s[k];
    }
  }

  /** Two runs joined by a character that is neither white space nor '@' have neither. */
  lemma JoinedRunsPlain(left: string, c: char, right: string)
    requires AllPlain(left) && Plain(c) && AllPlain(right)
    ensures AllPlain(left + [c] + right)
  {
    var rest := left + [c] + right;
    forall i | 0 <= i < |rest| ensures Plain(rest[i]) {
      if i < |left| {
        assert rest[i] == left[i];
      } else if i > |left| {
        assert rest[i] == right[i - |left| - 1];
      }
    }
  }

  /** The scanning check accepts exactly what the regular expression matches. */
  lemma EmailShapeMatchesRegex(s: string)
    ensures IsEmailShape(s) <==> MatchesEmailRegex(s)
  {
    if IsEmailShape(s) {
      ShapeImpliesRegex(s);
    }
    if MatchesEmailRegex(s) {
      RegexImpliesShape(s);
    }
  }

  /** The errors `validateForm` stores: one entry per failing check, with that field's message. */
  function FormErrors(username: string, email: string, password: string): (errs: map<Field, string>)
    ensures forall f :: f in errs ==> errs[f] == ErrorMessage(f)
  {
    ErrorsOf(|JsTrim(username)| < 3, !IsEmailShape(JsTrim(email)), |password| < 6)
  }

  /** The fields `FormErrors` reports are exactly those whose check fails: the username when its
      trimmed length is below 3, the email when its trimmed form does not match the email expression,
      the password when it is shorter than 6 (untrimmed). There are no errors exactly when all three
      pass. */
  lemma FormErrorsExact(username: string, email: string, password: string)
    ensures Username in FormErrors(username, email, password) <==> |JsTrim(username)| < 3
    ensures Email in FormErrors(username, email, password) <==> !MatchesEmailRegex(JsTrim(email))
    ensures Password in FormErrors(username, email, password) <==> |password| < 6
    ensures (forall f :: f !in FormErrors(username, email, password)) <==> FormValid(username, email, password)
  {
    EmailShapeMatchesRegex(JsTrim(email));
  }

  /** The error map for the given failing checks, filled in the order username, email, password. */
  function ErrorsOf(badUsername: bool, badEmail: bool, badPassword: bool): (errs: map<Field, string>)
    ensures Username in errs <==> badUsername
    ensures Email in errs <==> badEmail
    ensures Password in errs <==> badPassword
    ensures forall f :: f in errs ==> errs[f] == ErrorMessage(f)
    ensures errs == map[] <==> !badUsername && !badEmail && !badPassword
  {
    var u := if badUsername then map[Username := UsernameError] else map[];
    var e := if badEmail then u[Email := EmailError] else u;
    if badPassword then e[Password := PasswordError] else e
  }

  /** All three checks pass. */
  ghost predicate FormValid(username: string, email: string, password: string) {
    |JsTrim(username)| >= 3 && MatchesEmailRegex(JsTrim(email)) && |password| >= 6
  }

  /** What is handed to the next step: the username trimmed, the email trimmed and lower-cased, the
      password as typed. */
  datatype Credentials = Credentials(username: string, email: string, password: string)

  function Normalize(username: string, email: string, password: string): (c: Credentials)
    ensures c.password == password
    ensures exists i :: TrimmedAt(username, c.username, IsJsSpace, i)
    ensures exists e, i :: TrimmedAt(email, e, IsJsSpace, i) && c.email == AsciiLower(e)
    ensures |c.username| <= |username| && |c.email| <= |email|
    ensures c.username != [] ==> !IsJsSpace(c.username[0]) && !IsJsSpace(c.username[|c.username| - 1])
    ensures c.email != [] ==> !IsJsSpace(c.email[0]) && !IsJsSpace(c.email[|c.email| - 1])
    ensures forall i :: 0 <= i < |c.email| ==> !('A' <= c.email[i] <= 'Z')
  {
    var e := JsTrim(email);
    var l := AsciiLower(e);
    LowerOfTrimmedIsTrimmed(email);
    assert l != [] ==> l == JsTrim(l) && !IsJsSpace(JsTrim(l)[0]) && !IsJsSpace(JsTrim(l)[|l| - 1]);
    Credentials(JsTrim(username), l, password)
  }

  /** Lower-casing keeps white space, '@' and '.' where they are and introduces none. */
  lemma LowerKeepsSeparators(c: char)
    ensures IsJsSpace(LowerChar(c)) <==> IsJsSpace(c)
    ensures LowerChar(c) == '@' <==> c == '@'
    ensures LowerChar(c) == '.' <==> c == '.'
  {
  }

  lemma LowerKeepsPlainRun(s: string)
    requires PlainRun(s)
    ensures PlainRun(AsciiLower(s))
  {
    forall i | 0 <= i < |s| ensures Plain(AsciiLower(s)[i]) {
      LowerKeepsSeparators(s[i]);
    }
  }

  lemma LowerSlice(s: string, i: nat, j: nat)
    requires i <= j <= |s|
    ensures AsciiLower(s)[i..j] == AsciiLower(s[i..j])
  {
  }

  /** Lower-casing preserves the email shape. */
  lemma LowerKeepsEmailShape(s: string)
    requires MatchesEmailRegex(s)
    ensures MatchesEmailRegex(AsciiLower(s))
  {
    var a, d :| RegexSplit(s, a, d);
    LowerKeepsSplit(s, a, d);
  }

  lemma LowerKeepsSplit(s: string, a: int, d: int)
    requires RegexSplit(s, a, d)
    ensures RegexSplit(AsciiLower(s), a, d)
  {
    var t := AsciiLower(s);
    LowerKeepsSeparators(s[a]);
    LowerKeepsSeparators(s[d]);
    LowerSlice(s, 0, a);
    LowerSlice(s, a + 1, d);
    LowerSlice(s, d + 1, |s|);
    assert s[..a] == s[0..a] && s[d + 1..] == s[d + 1..|s|];
    assert t[..a] == t[0..a] && t[d + 1..] == t[d + 1..|s|];
    LowerKeepsPlainRun(s[..a]);
    LowerKeepsPlainRun(s[a + 1..d]);
    LowerKeepsPlainRun(s[d + 1..]);
  }

  /** Credentials handed on from a form that passed validation pass it again. */
  lemma NormalizedFormStaysValid(username: string, email: string, password: string)
    requires FormValid(username, email, password)
    ensures var c := Normalize(username, email, password); FormValid(c.username, c.email, c.password)
  {
    TrimIdempotent(username, IsJsSpace);
    LowerOfTrimmedIsTrimmed(email);
    LowerKeepsEmailShape(JsTrim(email));
  }

  /** Normalizing handed-on credentials a second time changes nothing. */
  lemma NormalizeIdempotent(username: string, email: string, password: string)
    ensures var c := Normalize(username, email, password); Normalize(c.username, c.email, c.password) == c
  {
    TrimIdempotent(username, IsJsSpace);
    LowerOfTrimmedIsTrimmed(email);
    AsciiLowerIdempotent(JsTrim(email));
  }

  /** Lower-casing a trimmed string leaves nothing to trim. */
  lemma LowerOfTrimmedIsTrimmed(email: string)
    ensures JsTrim(AsciiLower(JsTrim(email))) == AsciiLower(JsTrim(email))
  {
    var e := JsTrim(email);
    var l := AsciiLower(e);
    if e != [] {
      LowerKeepsSeparators(e[0]);
      LowerKeepsSeparators(e[|e| - 1]);
    }
    TrimNoop(l, IsJsSpace);
  }

  /** Per-field initial values, each possibly absent. */
  datatype InitialData = InitialData(username: Option<string>, email: Option<string>, password: Option<string>)

  /** `initialData?.field || ''`. */
  function InitialValue(initial: Option<InitialData>, f: Field): (v: string)
    ensures initial.None? ==> v == ""
    ensures initial.Some? ==> v == FieldOf(initial.value, f).GetOr("")
  {
    if initial.None? then "" else FieldOf(initial.value, f).GetOr("")
  }

  function FieldOf(d: InitialData, f: Field): Option<string> {
    match f
    case Username => d.username
    case Email => d.email
    case Password => d.password
  }

  /** The signup form's state. */
  class SignupFormScreen {
    var username: string
    var email: string
    var password: string
    var errors: map<Field, string>
    var loading: bool

    function Value(f: Field): string
      reads this
    {
      match f
      case Username => username
      case Email => email
      case Password => password
    }

    constructor (initial: Option<InitialData>)
      ensures forall f :: Value(f) == InitialValue(initial, f)
      ensures errors == map[] && !loading
    {
      username := InitialValue(initial, Username);
      email := InitialValue(initial, Email);
      password := InitialValue(initial, Password);
      errors := map[];
      loading := false;
    }

    /** Replaces the stored errors wholesale and reports whether there are none. */
    method ValidateForm() returns (ok: bool)
      modifies this`errors
      ensures errors == FormErrors(username, email, password)
      ensures ok <==> forall f :: f !in errors
    {
      errors := FormErrors(username, email, password);
      ok := Username !in errors && Email !in errors && Password !in errors;
    }

    /** Typing in field `f`: only that field's value changes, and only that field's error, if it had a
        non-empty one, is blanked. */
    method HandleInputChange(f: Field, v: string)
      modifies this
      ensures Value(f) == v
      ensures forall g :: g != f ==> Value(g) == old(Value(g))
      ensures errors == if f in old(errors) && old(errors)[f] != "" then old(errors)[f := ""] else old(errors)
      ensures loading == old(loading)
    {
      match f {
        case Username => username := v;
        case Email => email := v;
        case Password => password := v;
      }
      if f in errors && errors[f] != "" {
        errors := errors[f := ""];
      }
    }

    /** Continue: validates; on failure it stops with the errors shown; otherwise it hands on the
        normalized credentials, the loading flag being cleared again at the end. */
    method HandleContinue() returns (next: Option<Credentials>)
      modifies this
      ensures username == old(username) && email == old(email) && password == old(password)
      ensures errors == FormErrors(username, email, password)
      ensures next.Some? <==> forall f :: f !in errors
      ensures next.Some? ==> next.value == Normalize(username, email, password) && !loading
      ensures next.None? ==> loading == old(loading)
    {
      var ok := ValidateForm();
      if !ok {
        return None;
      }
      loading := true;
      next := Some(Normalize(username, email, password));
      loading := false;
    }
  }
}
