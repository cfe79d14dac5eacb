/**
 * The account backend: the two validators, the ordered signup checks over a user table with unique
 * usernames and emails, and the login lookup by email or username.
 */
module Accounts {
  import opened Options
  import opened Text

  // ---------------------------------------------------------------------------------------------
  // Validators
  // ---------------------------------------------------------------------------------------------

  predicate AsciiLetter(c: char) {
    'a' <= c <= 'z' || 'A' <= c <= 'Z'
  }

  predicate AsciiDigit(c: char) {
    '0' <= c <= '9'
  }

  /** The class `[a-zA-Z0-9._%+-]` of the part before '@'. */
  predicate LocalChar(c: char) {
    AsciiLetter(c) || AsciiDigit(c) || c == '.' || c == '_' || c == '%' || c == '+' || c == '-'
  }

  /** The class `[a-zA-Z0-9.-]` of the domain. */
  predicate DomainChar(c: char) {
    AsciiLetter(c) || AsciiDigit(c) || c == '.' || c == '-'
  }

  predicate AllOf(s: string, p: char -> bool) {
    forall i :: 0 <= i < |s| ==> p(s[i])
  }

  /** What `[a-zA-Z0-9._%+-]+@[a-zA-Z0-9.-]+\.[a-zA-Z]{2,}` matches as a whole string. */
  ghost predicate PatternBody(s: string) {
    exists a, d :: 0 < a && a + 1 < d && d + 2 < |s| && s[a] == '@' && s[d] == '.' &&
      AllOf(s[..a], LocalChar) && AllOf(s[a + 1..d], DomainChar) && AllOf(s[d + 1..], AsciiLetter)
  }

  /** What `re.match` with the anchored pattern accepts: Python's `$` matches at the very end or just
      before a final line feed. */
  ghost predicate MatchesPattern(s: string) {
    PatternBody(s) || (|s| > 0 && s[|s| - 1] == '\n' && PatternBody(s[..|s| - 1]))
  }

  /** The pattern checked by scanning: the first '@' splits the string, the last '.' after it starts a
      run of at least two letters. */
  predicate EmailBody(s: string) {
    match FirstIndexOf(s, '@')
    case None => false
    case Some(a) =>
      match LastIndexOf(s[a + 1..], '.')
      case None => false
      case Some(k) => SplitsAt(s, a, k)
  }

  /** With '@' at `a` and the chosen '.' at `k` after it, the three parts have the right characters and
      lengths. */
  predicate SplitsAt(s: string, a: nat, k: nat)
    requires a < |s| && k < |s| - a - 1
  {
    var rest := s[a + 1..];
    0 < a && 0 < k && |rest| - k - 1 >= 2 &&
    AllOf(s[..a], LocalChar) && AllOf(rest[..k], DomainChar) && AllOf(rest[k + 1..], AsciiLetter)
  }

  lemma EmailBodyIsPattern(s: string)
    requires EmailBody(s)
    ensures PatternBody(s)
  {
    var a := FirstIndexOf(s, '@').value;
    var rest := s[a + 1..];
    var k := LastIndexOf(rest, '.').value;
    var d := a + 1 + k;
    assert s[d] == rest[k];
    assert s[a + 1..d] == rest[..k];
    assert s[d + 1..] == rest[k + 1..];
  }

  lemma FirstIndexIs(s: string, c: char, a: nat)
    requires a < |s| && s[a] == c && forall k :: 0 <= k < a ==> s[k] != c
    ensures FirstIndexOf(s, c) == Some(a)
  {
  }

  lemma LastIndexIs(s: string, c: char, k: nat)
    requires k < |s| && s[k] == c && forall j :: k < j < |s| ==> s[j] != c
    ensures LastIndexOf(s, c) == Some(k)
  {
  }

  /** The part before '@' holds no '@'. */
  lemma NoAtInLocalPart(s: string, a: nat)
    requires a <= |s| && AllOf(s[..a], LocalChar)
    ensures forall j :: 0 <= j < a ==> s[j] != '@'
  {
    forall j | 0 <= j < a ensures s[j] != '@' {
      assert s[..a][j] == s[j];
    }
  }

  /** The letters after the last '.' hold no '.'. */
  lemma NoDotInLetters(rest: string, k: nat)
    requires k < |rest| && AllOf(rest[k + 1..], AsciiLetter)
    ensures forall j :: k < j < |rest| ==> rest[j] != '.'
  {
    forall j | k < j < |rest| ensures rest[j] != '.' {
      assert rest[j] == rest[k + 1..][j - k - 1];
    }
  }

  lemma PatternIsEmailBody(s: string)
    requires PatternBody(s)
    ensures EmailBody(s)
  {
    var a, d :| 0 < a && a + 1 < d && d + 2 < |s| && s[a] == '@' && s[d] == '.' &&
      AllOf(s[..a], LocalChar) && AllOf(s[a + 1..d], DomainChar) && AllOf(s[d + 1..], AsciiLetter);
    SplitIsEmailBody(s, a, d);
  }

  lemma SplitIsEmailBody(s: string, a: nat, d: nat)
    requires 0 < a && a + 1 < d && d + 2 < |s| && s[a] == '@' && s[d] == '.'
    requires AllOf(s[..a], LocalChar) && AllOf(s[a + 1..d], DomainChar) && AllOf(s[d + 1..], AsciiLetter)
    ensures EmailBody(s)
  {
    NoAtInLocalPart(s, a);
    FirstIndexIs(s, '@', a);
    var rest := s[a + 1..];
    var k := d - a - 1;
    assert rest[k] == '.';
    assert rest[k + 1..] == s[d + 1..];
    NoDotInLetters(rest, k);
    LastIndexIs(rest, '.', k);
    assert rest[..k] == s[a + 1..d];
    assert SplitsAt(s, a, k);
  }

  /** `validate_email`: accepts exactly what the pattern matches, final line feed included. */
  function ValidateEmail(s: string): (r: bool)
    ensures r <==> MatchesPattern(s)
  {
    if EmailBody(s) then
      EmailBodyIsPattern(s);
      true
    else if |s| > 0 && s[|s| - 1] == '\n' && EmailBody(s[..|s| - 1]) then
      EmailBodyIsPattern(s[..|s| - 1]);
      true
    else
      assert !PatternBody(s) by {
        if PatternBody(s) { PatternIsEmailBody(s); }
      }
      assert |s| > 0 && s[|s| - 1] == '\n' ==> !PatternBody(s[..|s| - 1]) by {
        if |s| > 0 && s[|s| - 1] == '\n' && PatternBody(s[..|s| - 1]) { PatternIsEmailBody(s[..|s| - 1]); }
      }
      false
  }

  lemma ExampleAddress()
    ensures PatternBody("ab@cd.ef")
  {
    var s := "ab@cd.ef";
    assert s[..2] == "ab" && s[3..5] == "cd" && s[6..] == "ef";
    assert AllOf("ab", LocalChar) && AllOf("cd", DomainChar) && AllOf("ef", AsciiLetter);
    assert s[2] == '@' && s[5] == '.';
    assert AllOf(s[..2], LocalChar) && AllOf(s[2 + 1..5], DomainChar) && AllOf(s[5 + 1..], AsciiLetter);
  }

  /** Because Python's `$` also matches before a final line feed, an address followed by "\n" passes,
      though "\n" is not in any of the pattern's classes. */
  lemma TrailingLineFeedAccepted()
    ensures ValidateEmail("ab@cd.ef\n") && !PatternBody("ab@cd.ef\n")
  {
    var s := "ab@cd.ef\n";
    ExampleAddress();
    assert s[..|s| - 1] == "ab@cd.ef";
    forall d | 1 < d && d + 2 < |s| && s[d] == '.'
      ensures !AllOf(s[d + 1..], AsciiLetter)
    {
      assert d == 5;
      assert s[d + 1..][2] == '\n';
    }
  }

  /** The last part needs at least two letters. */
  lemma OneLetterTopLevelRejected()
    ensures !ValidateEmail("ab@cd.e")
  {
    var s := "ab@cd.e";
    forall d | 1 < d && d + 2 < |s| ensures s[d] != '.' {
    }
  }

  /** `validate_password`: at least 6 characters. */
  function ValidatePassword(p: string): (r: bool)
    ensures r <==> |p| >= 6
  {
    |p| >= 6
  }

  // ---------------------------------------------------------------------------------------------
  // Requests, responses and the user table
  // ---------------------------------------------------------------------------------------------

  /** A JSON request body: absent (no or unparsable JSON), or an object with string values. */
  type Request = Option<map<string, string>>

  /** `not data`: no body, or an empty object. A request with data carries at least one field, and one
      without reads every field as empty. */
  predicate NoData(request: Request)
    ensures !NoData(request) <==> request.Some? && exists k :: k in request.value
    ensures NoData(request) && request.Some? ==> forall k :: Get(request.value, k) == ""
  {
    request.None? || request.value == map[]
  }

  /** `data.get(key, '')`. */
  function Get(data: map<string, string>, key: string): string {
    if key in data then data[key] else ""
  }

  /** The stored password hash. Hashing is treated abstractly: a hash records what it was made from, and
      checking a password against it succeeds exactly for that password. */
  datatype PasswordHash = PasswordHash(salt: string, source: string)

  function GeneratePasswordHash(salt: string, password: string): PasswordHash {
    PasswordHash(salt, password)
  }

  predicate CheckPasswordHash(h: PasswordHash, password: string) {
    h.source == password
  }

  /** A hash made from `p` accepts `p` and only `p`. */
  lemma HashCheckLaw(salt: string, p: string, q: string)
    ensures CheckPasswordHash(GeneratePasswordHash(salt, p), q) <==> p == q
  {
  }

  datatype UserRow = UserRow(id: int, username: string, email: string, passwordHash: PasswordHash)

  /** The user fields a response carries. */
  datatype UserInfo = UserInfo(id: int, username: string, email: string)

  function Info(u: UserRow): UserInfo {
    UserInfo(u.id, u.username, u.email)
  }

  datatype Body = ErrorBody(error: string) | UserBody(message: string, user: UserInfo)

  datatype Response = Response(status: int, body: Body)

  const NoDataError := "No data provided"
  const UsernameLengthError := "Username must be at least 3 characters"
  const EmailFormatError := "Invalid email format"
  const PasswordLengthError := "Password must be at least 6 characters"
  const UsernameTakenError := "Username already exists"
  const EmailTakenError := "Email already registered"
  const LoginFieldError := "Username or email is required"
  const LoginPasswordError := "Password is required"
  const InvalidCredentialsError := "Invalid username/email or password"
  const CreatedMessage := "User created successfully"
  const LoginMessage := "Login successful"

  /** Usernames, emails and ids are each unique across the table. */
  predicate UniqueRows(users: seq<UserRow>) {
    forall i, j :: 0 <= i < j < |users| ==>
      users[i].username != users[j].username && users[i].email != users[j].email && users[i].id != users[j].id
  }

  datatype Column = UsernameColumn | EmailColumn

  function ColumnValue(u: UserRow, column: Column): string {
    match column
    case UsernameColumn => u.username
    case EmailColumn => u.email
  }

  /** Row `i` holds `row`, has `key` in `column`, and no earlier row does. */
  predicate FoundAt(users: seq<UserRow>, column: Column, key: string, i: int, row: UserRow) {
    0 <= i < |users| && users[i] == row && ColumnValue(row, column) == key &&
    forall j :: 0 <= j < i ==> ColumnValue(users[j], column) != key
  }

  /** `User.query.filter_by(column=key).first()`: the first row whose column equals the key. */
  function FindBy(users: seq<UserRow>, column: Column, key: string): (r: Option<UserRow>)
    ensures r.None? <==> forall i :: 0 <= i < |users| ==> ColumnValue(users[i], column) != key
    ensures r.Some? ==> exists i :: FoundAt(users, column, key, i, r.value)
    ensures r.Some? ==> r.value in users
  {
    if users == [] then None
    else if ColumnValue(users[0], column) == key then
      assert FoundAt(users, column, key, 0, users[0]);
      Some(users[0])
    else
      var r := FindBy(users[1..], column, key);
      assert r.Some? ==> exists i :: FoundAt(users, column, key, i, r.value) by {
        if r.Some? {
          var i :| FoundAt(users[1..], column, key, i, r.value);
          assert forall j :: 1 <= j < i + 1 ==> users[j] == users[1..][j - 1];
          assert FoundAt(users, column, key, i + 1, r.value);
        }
      }
      r
  }

  /** In a table with unique values in `column`, the row found is the only one with that value. */
  lemma FindByUnique(users: seq<UserRow>, column: Column, i: nat)
    requires UniqueRows(users) && i < |users|
    ensures FindBy(users, column, ColumnValue(users[i], column)) == Some(users[i])
  {
  }

  /** Looking up a value no existing row has, after appending a row with that value, finds the new row. */
  lemma FindByAppended(users: seq<UserRow>, row: UserRow, column: Column)
    requires FindBy(users, column, ColumnValue(row, column)).None?
    ensures FindBy(users + [row], column, ColumnValue(row, column)) == Some(row)
  {
    var t := users + [row];
    assert t[|users|] == row;
    forall j | 0 <= j < |users| ensures ColumnValue(t[j], column) != ColumnValue(row, column) {
      assert t[j] == users[j];
    }
  }

  // ---------------------------------------------------------------------------------------------
  // Signup
  // ---------------------------------------------------------------------------------------------

  /** The normalized signup input: username stripped, email stripped and lower-cased, password as sent. */
  datatype SignupInput = SignupInput(username: string, email: string, password: string)

  /** The input as `signup` normalizes it: the password as sent, and a username and an email with nothing
      left to strip, the email lower case. */
  function NormalizeSignup(data: map<string, string>): (r: SignupInput)
    ensures r.password == Get(data, "password")
    ensures exists i :: TrimmedAt(Get(data, "username"), r.username, IsPySpace, i)
    ensures exists e, i :: TrimmedAt(Get(data, "email"), e, IsPySpace, i) && r.email == AsciiLower(e)
    ensures |r.username| <= |Get(data, "username")| && |r.email| <= |Get(data, "email")|
    ensures StrippedUsername(r) && NormalEmail(r)
  {
    StoredEmailIsNormal(Get(data, "email"));
    SignupInput(PyStrip(Get(data, "username")), AsciiLower(PyStrip(Get(data, "email"))), Get(data, "password"))
  }

  /** The three field checks in their order. */
  ghost predicate FieldsValid(input: SignupInput) {
    |input.username| >= 3 && MatchesPattern(input.email) && |input.password| >= 6
  }

  ghost predicate Taken(users: seq<UserRow>, column: Column, key: string) {
    exists i :: 0 <= i < |users| && ColumnValue(users[i], column) == key
  }

  /** Every check passes: the fields are valid and neither the username nor the email is in use. */
  ghost predicate Accepted(users: seq<UserRow>, input: SignupInput) {
    FieldsValid(input) && !Taken(users, UsernameColumn, input.username) && !Taken(users, EmailColumn, input.email)
  }

  /** The checks on normalized input, in order: username length, email format, password length,
      username taken, email taken. The first that fails decides the message; when none fails the input
      is accepted. */
  function SignupChecks(users: seq<UserRow>, input: SignupInput): (r: Result<SignupInput, string>)
    ensures r.Success? <==> Accepted(users, input)
    ensures r.Success? ==> r.value == input
  {
    if |input.username| < 3 then Failure(UsernameLengthError)
    else if !ValidateEmail(input.email) then Failure(EmailFormatError)
    else if !ValidatePassword(input.password) then Failure(PasswordLengthError)
    else if FindBy(users, UsernameColumn, input.username).Some? then Failure(UsernameTakenError)
    else if FindBy(users, EmailColumn, input.email).Some? then Failure(EmailTakenError)
    else Success(input)
  }

  /** `signup`'s decision: no data first, then the checks on the normalized input. */
  function SignupDecision(users: seq<UserRow>, request: Request): (r: Result<SignupInput, string>)
    ensures NoData(request) ==> r == Failure(NoDataError)
    ensures r.Success? <==> !NoData(request) && Accepted(users, NormalizeSignup(request.value))
    ensures r.Success? ==> r.value == NormalizeSignup(request.value)
  {
    if NoData(request) then Failure(NoDataError) else SignupChecks(users, NormalizeSignup(request.value))
  }

  /** The field checks come first, in order, each failure answering with its own message. */
  lemma FieldChecksInOrder(users: seq<UserRow>, input: SignupInput)
    ensures var r := SignupChecks(users, input);
      && (r == Failure(UsernameLengthError) <==> |input.username| < 3)
      && (r == Failure(EmailFormatError) <==> |input.username| >= 3 && !MatchesPattern(input.email))
      && (r == Failure(PasswordLengthError) <==>
            |input.username| >= 3 && MatchesPattern(input.email) && |input.password| < 6)
  {
  }

  /** Uniqueness is checked only for valid fields, the username before the email. */
  lemma UniquenessChecksInOrder(users: seq<UserRow>, input: SignupInput)
    ensures var r := SignupChecks(users, input);
      && (r == Failure(UsernameTakenError) <==> FieldsValid(input) && Taken(users, UsernameColumn, input.username))
      && (r == Failure(EmailTakenError) <==>
            FieldsValid(input) && !Taken(users, UsernameColumn, input.username) &&
            Taken(users, EmailColumn, input.email))
  {
  }

  /** A check failure never comes from a request without data: that one answers its own message. */
  lemma NoDataFirst(users: seq<UserRow>, request: Request)
    ensures SignupDecision(users, request) == Failure(NoDataError) <==> NoData(request)
  {
    if !NoData(request) {
      FieldChecksInOrder(users, NormalizeSignup(request.value));
      UniquenessChecksInOrder(users, NormalizeSignup(request.value));
    }
  }

  /** Neither end is Python white space, so stripping changes nothing. */
  predicate PyUnpadded(s: string) {
    s != [] ==> !IsPySpace(s[0]) && !IsPySpace(s[|s| - 1])
  }

  /** A username as signup stores it: nothing left to strip. */
  predicate StrippedUsername(input: SignupInput) {
    PyUnpadded(input.username)
  }

  /** An email as signup stores it: nothing left to strip, already lower case. */
  predicate NormalEmail(input: SignupInput) {
    PyUnpadded(input.email) && AsciiLower(input.email) == input.email
  }

  /** The row a successful signup stores. */
  function NewRow(id: int, input: SignupInput, salt: string): UserRow {
    UserRow(id, input.username, input.email, GeneratePasswordHash(salt, input.password))
  }

  /** Every id in the table is positive and below `nextId`. */
  predicate IdsBelow(users: seq<UserRow>, nextId: int) {
    forall i :: 0 <= i < |users| ==> 1 <= users[i].id < nextId
  }

  /** Usernames, emails and ids are unique, and every id is positive and below `nextId`. */
  predicate TableValid(users: seq<UserRow>, nextId: int) {
    UniqueRows(users) && IdsBelow(users, nextId) && 1 <= nextId
  }

  /** Adding a row whose username and email are not in use, with a fresh id, keeps usernames, emails
      and ids unique. */
  lemma SignupKeepsUnique(users: seq<UserRow>, input: SignupInput, nextId: int, salt: string)
    requires TableValid(users, nextId)
    requires Accepted(users, input)
    ensures TableValid(users + [NewRow(nextId, input, salt)], nextId + 1)
  {
    var t := users + [NewRow(nextId, input, salt)];
    forall i, j | 0 <= i < j < |t|
      ensures t[i].username != t[j].username && t[i].email != t[j].email && t[i].id != t[j].id
    {
      if j == |users| {
        assert t[i] == users[i];
        assert ColumnValue(users[i], UsernameColumn) != input.username;
        assert ColumnValue(users[i], EmailColumn) != input.email;
      } else {
        assert t[i] == users[i] && t[j] == users[j];
      }
    }
    forall i | 0 <= i < |users| ensures 1 <= t[i].id < nextId + 1 {
      assert t[i] == users[i];
    }
  }

  /** The user table, `id` being assigned from `nextId`. */
  class UserStore {
    var users: seq<UserRow>
    var nextId: int

    ghost predicate Valid()
      reads this
    {
      TableValid(users, nextId)
    }

    constructor ()
      ensures users == [] && nextId == 1 && Valid()
    {
      users := [];
      nextId := 1;
    }

    /** `POST /api/signup`: a rejected request answers 400 with the first failing check's message and
        leaves the table alone; an accepted one appends exactly one row and answers 201 with it. */
    method Signup(request: Request, salt: string) returns (response: Response)
      requires Valid()
      modifies this
      ensures var d := SignupDecision(old(users), request);
        && (d.Failure? ==>
              response == Response(400, ErrorBody(d.error)) && users == old(users) && nextId == old(nextId))
        && (d.Success? ==>
              var row := NewRow(old(nextId), d.value, salt);
              users == old(users) + [row] && nextId == old(nextId) + 1 &&
              response == Response(201, UserBody(CreatedMessage, Info(row))))
      ensures Valid()
    {
      var d := SignupDecision(users, request);
      if d.Failure? {
        response := Response(400, ErrorBody(d.error));
        return;
      }
      var row := Insert(d.value, salt);
      response := Response(201, UserBody(CreatedMessage, Info(row)));
    }

    /** Stores an accepted signup under the next id. */
    method Insert(input: SignupInput, salt: string) returns (row: UserRow)
      requires Valid() && Accepted(users, input)
      modifies this
      ensures row == NewRow(old(nextId), input, salt)
      ensures users == old(users) + [row] && nextId == old(nextId) + 1
      ensures Valid()
    {
      row := NewRow(nextId, input, salt);
      SignupKeepsUnique(users, input, nextId, salt);
      users := users + [row];
      nextId := nextId + 1;
    }
  }

  // ---------------------------------------------------------------------------------------------
  // Login
  // ---------------------------------------------------------------------------------------------

  /** The login field: the `username` value with Python white space stripped from both ends, so a piece
      of what was sent with nothing left to strip. */
  function LoginField(data: map<string, string>): (f: string)
    ensures exists i :: TrimmedAt(Get(data, "username"), f, IsPySpace, i)
    ensures PyUnpadded(f)
  {
    PyStrip(Get(data, "username"))
  }

  /** The 400 answers of `login`, in order: no data, empty login field, empty password. */
  function LoginPrecheck(request: Request): (r: Option<Response>)
    ensures r.Some? <==> NoData(request) || LoginField(request.value) == "" || Get(request.value, "password") == ""
    ensures r.Some? ==> r.value.status == 400
    ensures NoData(request) ==> r == Some(Response(400, ErrorBody(NoDataError)))
    ensures !NoData(request) && LoginField(request.value) == "" ==> r == Some(Response(400, ErrorBody(LoginFieldError)))
    ensures !NoData(request) && LoginField(request.value) != "" && Get(request.value, "password") == "" ==>
      r == Some(Response(400, ErrorBody(LoginPasswordError)))
  {
    if NoData(request) then Some(Response(400, ErrorBody(NoDataError)))
    else if LoginField(request.value) == "" then Some(Response(400, ErrorBody(LoginFieldError)))
    else if Get(request.value, "password") == "" then Some(Response(400, ErrorBody(LoginPasswordError)))
    else None
  }

  /** The lookup `login` performs: by lower-cased email when the field passes `validate_email`,
      otherwise by exact username. */
  function LookUp(users: seq<UserRow>, field: string): (r: Option<UserRow>)
    ensures MatchesPattern(field) ==> r == FindBy(users, EmailColumn, AsciiLower(field))
    ensures !MatchesPattern(field) ==> r == FindBy(users, UsernameColumn, field)
    ensures r.Some? ==> r.value in users
  {
    if ValidateEmail(field) then FindBy(users, EmailColumn, AsciiLower(field))
    else FindBy(users, UsernameColumn, field)
  }

  /** The answer once a row has (or has not) been found: a missing row and a wrong password give the
      same 401 answer. */
  function Authenticate(found: Option<UserRow>, password: string): (r: Response)
    ensures r.status == 200 <==> found.Some? && CheckPasswordHash(found.value.passwordHash, password)
    ensures r.status == 200 ==> r.body == UserBody(LoginMessage, Info(found.value))
    ensures r.status != 200 ==> r == Response(401, ErrorBody(InvalidCredentialsError))
  {
    match found
    case None => Response(401, ErrorBody(InvalidCredentialsError))
    case Some(u) =>
      if !CheckPasswordHash(u.passwordHash, password) then Response(401, ErrorBody(InvalidCredentialsError))
      else Response(200, UserBody(LoginMessage, Info(u)))
  }

  /** A login request that passes the three 400 checks: it has data, a non-empty login field and a
      non-empty password. */
  predicate WellFormedLogin(request: Request) {
    !NoData(request) && LoginField(request.value) != "" && Get(request.value, "password") != ""
  }

  /** `POST /api/login` as written. A request failing a 400 check gets that check's message; past them,
      the answer is 200 with the user exactly when the lookup finds a row whose hash accepts the
      password, and otherwise one and the same 401, whether the user is unknown or the password wrong. */
  function Login(users: seq<UserRow>, request: Request): (r: Response)
    ensures r.status == 400 <==> !WellFormedLogin(request)
    ensures NoData(request) ==> r.body == ErrorBody(NoDataError)
    ensures !NoData(request) && LoginField(request.value) == "" ==> r.body == ErrorBody(LoginFieldError)
    ensures !NoData(request) && LoginField(request.value) != "" && Get(request.value, "password") == "" ==>
      r.body == ErrorBody(LoginPasswordError)
    ensures r.status == 200 <==>
      WellFormedLogin(request) && LookUp(users, LoginField(request.value)).Some? &&
      CheckPasswordHash(LookUp(users, LoginField(request.value)).value.passwordHash, Get(request.value, "password"))
    ensures r.status == 200 ==>
      exists u :: u in users && r.body == UserBody(LoginMessage, Info(u)) &&
                  CheckPasswordHash(u.passwordHash, Get(request.value, "password"))
    ensures r.status != 200 && r.status != 400 ==> r == Response(401, ErrorBody(InvalidCredentialsError))
  {
    match LoginPrecheck(request)
    case Some(rejected) => rejected
    case None => Authenticate(LookUp(users, LoginField(request.value)), Get(request.value, "password"))
  }

  /** A login request with the given field and password. */
  function LoginRequest(field: string, password: string): Request {
    Some(map["username" := field, "password" := password])
  }

  lemma LoginRequestFields(field: string, password: string)
    ensures !NoData(LoginRequest(field, password))
    ensures Get(LoginRequest(field, password).value, "username") == field
    ensures Get(LoginRequest(field, password).value, "password") == password
  {
    assert "username" in LoginRequest(field, password).value;
  }

  /** Lower-casing keeps Python white space where it is. */
  lemma LowerKeepsPySpace(c: char)
    ensures IsPySpace(LowerChar(c)) <==> IsPySpace(c)
  {
  }

  /** A stored email has nothing left to strip and is already lower case. */
  lemma StoredEmailIsNormal(email: string)
    ensures PyUnpadded(AsciiLower(PyStrip(email)))
    ensures AsciiLower(AsciiLower(PyStrip(email))) == AsciiLower(PyStrip(email))
  {
    var e := PyStrip(email);
    if e != [] {
      LowerKeepsPySpace(e[0]);
      LowerKeepsPySpace(e[|e| - 1]);
    }
    AsciiLowerIdempotent(e);
  }

  /** A valid address has at least six characters. */
  lemma ValidEmailLength(s: string)
    requires MatchesPattern(s)
    ensures |s| >= 6
  {
  }

  /** A row whose username and email were not in use is what a lookup of either now finds. */
  lemma FindByAppendedAccepted(users: seq<UserRow>, input: SignupInput, row: UserRow, column: Column)
    requires Accepted(users, input) && row.username == input.username && row.email == input.email
    ensures FindBy(users + [row], column, ColumnValue(row, column)) == Some(row)
  {
    assert FindBy(users, column, ColumnValue(row, column)).None?;
    FindByAppended(users, row, column);
  }

  /** The login lookup of a valid, lower-case email is the email column lookup. */
  lemma ValidEmailLooksUp(users: seq<UserRow>, e: string)
    requires MatchesPattern(e) && AsciiLower(e) == e
    ensures LookUp(users, e) == FindBy(users, EmailColumn, e)
  {
  }

  /** The login lookup of a field that is not a valid email is the username column lookup. */
  lemma NonEmailLooksUp(users: seq<UserRow>, field: string, row: UserRow)
    requires !ValidateEmail(field)
    requires FindBy(users, UsernameColumn, field) == Some(row)
    ensures LookUp(users, field) == Some(row)
  {
  }

  /** A well-formed login request whose lookup finds a row with the right password logs in as that row. */
  lemma LoginFinds(users: seq<UserRow>, field: string, password: string, row: UserRow)
    requires PyUnpadded(field) && field != "" && password != ""
    requires LookUp(users, field) == Some(row) && CheckPasswordHash(row.passwordHash, password)
    ensures Login(users, LoginRequest(field, password)) == Response(200, UserBody(LoginMessage, Info(row)))
  {
    LoginRequestFields(field, password);
    TrimNoop(field, IsPySpace);
  }

  /** Signing up and then logging in with the stored email and the password succeeds as the new user. */
  lemma SignupThenLoginByEmail(users: seq<UserRow>, input: SignupInput, id: int, salt: string)
    requires Accepted(users, input) && NormalEmail(input)
    ensures Login(users + [NewRow(id, input, salt)], LoginRequest(input.email, input.password))
            == Response(200, UserBody(LoginMessage, Info(NewRow(id, input, salt))))
  {
    var row := NewRow(id, input, salt);
    FindByAppendedAccepted(users, input, row, EmailColumn);
    ValidEmailLooksUp(users + [row], input.email);
    ValidEmailLength(input.email);
    LoginFinds(users + [row], input.email, input.password, row);
  }

  /** Signing up and then logging in with the username succeeds as the new user, provided the username
      does not itself pass `validate_email`. */
  lemma SignupThenLoginByUsername(users: seq<UserRow>, input: SignupInput, id: int, salt: string)
    requires Accepted(users, input) && StrippedUsername(input)
    requires !ValidateEmail(input.username)
    ensures Login(users + [NewRow(id, input, salt)], LoginRequest(input.username, input.password))
            == Response(200, UserBody(LoginMessage, Info(NewRow(id, input, salt))))
  {
    var row := NewRow(id, input, salt);
    FindByAppendedAccepted(users, input, row, UsernameColumn);
    NonEmailLooksUp(users + [row], input.username, row);
    LoginFinds(users + [row], input.username, input.password, row);
  }

  /** A well-formed login request whose lookup finds no one is refused with 401. */
  lemma LoginUnknown(users: seq<UserRow>, field: string, password: string)
    requires PyUnpadded(field) && field != "" && password != ""
    requires LookUp(users, field).None?
    ensures Login(users, LoginRequest(field, password)) == Response(401, ErrorBody(InvalidCredentialsError))
  {
    LoginRequestFields(field, password);
    TrimNoop(field, IsPySpace);
  }

  /** A request carrying exactly normalized fields normalizes to them. */
  lemma NormalizeOfNormal(data: map<string, string>, input: SignupInput)
    requires Get(data, "username") == input.username && Get(data, "email") == input.email
    requires Get(data, "password") == input.password
    requires StrippedUsername(input) && NormalEmail(input)
    ensures NormalizeSignup(data) == input
  {
    TrimNoop(input.username, IsPySpace);
    TrimNoop(input.email, IsPySpace);
  }

  /** As written: an account whose username passes `validate_email` cannot log in by that username
      (unless its lower-cased form is some account's email): the field is looked up as an email. */
  lemma EmailShapedUsernameLoginFails(users: seq<UserRow>, input: SignupInput, id: int, salt: string)
    requires Accepted(users, input) && StrippedUsername(input)
    requires MatchesPattern(input.username)
    requires !Taken(users, EmailColumn, AsciiLower(input.username)) && AsciiLower(input.username) != input.email
    ensures Login(users + [NewRow(id, input, salt)], LoginRequest(input.username, input.password))
            == Response(401, ErrorBody(InvalidCredentialsError))
  {
    var t := users + [NewRow(id, input, salt)];
    var key := AsciiLower(input.username);
    assert !Taken(t, EmailColumn, key) by {
      forall i | 0 <= i < |t| ensures ColumnValue(t[i], EmailColumn) != key {
        if i < |users| {
          assert t[i] == users[i];
        }
      }
    }
    assert LookUp(t, input.username).None?;
    LoginUnknown(t, input.username, input.password);
  }

  /** The discrepancy on one request: signup accepts the username "ab@cd.ef", and logging in with it
      and the right password is refused. */
  lemma EmailShapedUsernameCannotLogIn(request: Request, input: SignupInput)
    requires request == Some(map["username" := "ab@cd.ef", "email" := "x@y.zz", "password" := "secret"])
    requires input == SignupInput("ab@cd.ef", "x@y.zz", "secret")
    ensures SignupDecision([], request) == Success(input)
    ensures Login([NewRow(1, input, "s")], LoginRequest(input.username, input.password)).status == 401
  {
    ExampleSignupAccepted(request, input);
    ExampleLoginRefused(input);
  }

  lemma ExampleLoginRefused(input: SignupInput)
    requires input == SignupInput("ab@cd.ef", "x@y.zz", "secret")
    ensures Login([NewRow(1, input, "s")], LoginRequest(input.username, input.password)).status == 401
  {
    ExampleAccepted(input);
    ExampleUsernameShape(input.username);
    ExampleUsernameLower(input.username);
    FirstSignupLoginFails(input);
  }

  /** The general lemma on an empty table. */
  lemma FirstSignupLoginFails(input: SignupInput)
    requires Accepted([], input) && StrippedUsername(input) && MatchesPattern(input.username)
    requires AsciiLower(input.username) != input.email
    ensures Login([NewRow(1, input, "s")], LoginRequest(input.username, input.password)).status == 401
  {
    var t: seq<UserRow> := [];
    assert t + [NewRow(1, input, "s")] == [NewRow(1, input, "s")];
    EmailShapedUsernameLoginFails(t, input, 1, "s");
  }

  lemma ExampleUsernameShape(u: string)
    requires u == "ab@cd.ef"
    ensures MatchesPattern(u)
  {
    ExampleAddress();
  }

  lemma ExampleUsernameLower(u: string)
    requires u == "ab@cd.ef"
    ensures AsciiLower(u) == u && PyUnpadded(u)
  {
    AsciiLowerOfLower(u);
  }

  lemma ExampleSignupAccepted(request: Request, input: SignupInput)
    requires request == Some(map["username" := "ab@cd.ef", "email" := "x@y.zz", "password" := "secret"])
    requires input == SignupInput("ab@cd.ef", "x@y.zz", "secret")
    ensures SignupDecision([], request) == Success(input)
  {
    ExampleNormalizes(request.value, input);
    ExampleAccepted(input);
    assert !NoData(request) by {
      assert "username" in request.value;
    }
  }

  lemma ExampleNormalizes(data: map<string, string>, input: SignupInput)
    requires data == map["username" := "ab@cd.ef", "email" := "x@y.zz", "password" := "secret"]
    requires input == SignupInput("ab@cd.ef", "x@y.zz", "secret")
    ensures NormalizeSignup(data) == input
  {
    assert Get(data, "username") == input.username;
    assert Get(data, "email") == input.email;
    assert Get(data, "password") == input.password;
    AsciiLowerOfLower(input.email);
    NormalizeOfNormal(data, input);
  }

  lemma ExampleAccepted(input: SignupInput)
    requires input == SignupInput("ab@cd.ef", "x@y.zz", "secret")
    ensures Accepted([], input)
  {
    ExampleEmail();
  }

  lemma ExampleEmail()
    ensures PatternBody("x@y.zz")
  {
    var s := "x@y.zz";
    assert s[..1] == "x" && s[2..3] == "y" && s[4..] == "zz";
    assert AllOf("x", LocalChar) && AllOf("y", DomainChar) && AllOf("zz", AsciiLetter);
    assert s[1] == '@' && s[3] == '.';
    assert AllOf(s[..1], LocalChar) && AllOf(s[1 + 1..3], DomainChar) && AllOf(s[3 + 1..], AsciiLetter);
  }

  /** Corrected lookup: an exact username match wins, and only a field no username matches is looked up
      as an email. */
  function LookUpIntended(users: seq<UserRow>, field: string): (r: Option<UserRow>)
    ensures r.Some? ==> r.value in users
    ensures Taken(users, UsernameColumn, field) ==> r == FindBy(users, UsernameColumn, field)
    ensures !Taken(users, UsernameColumn, field) && MatchesPattern(field) ==>
      r == FindBy(users, EmailColumn, AsciiLower(field))
    ensures !Taken(users, UsernameColumn, field) && !MatchesPattern(field) ==> r.None?
  {
    var byName := FindBy(users, UsernameColumn, field);
    if byName.Some? then byName
    else if ValidateEmail(field) then FindBy(users, EmailColumn, AsciiLower(field))
    else None
  }

  /** Corrected `login`: the same checks and answers as `Login`, with the corrected lookup. */
  function LoginIntended(users: seq<UserRow>, request: Request): (r: Response)
    ensures r.status == 400 <==> !WellFormedLogin(request)
    ensures NoData(request) ==> r.body == ErrorBody(NoDataError)
    ensures !NoData(request) && LoginField(request.value) == "" ==> r.body == ErrorBody(LoginFieldError)
    ensures !NoData(request) && LoginField(request.value) != "" && Get(request.value, "password") == "" ==>
      r.body == ErrorBody(LoginPasswordError)
    ensures r.status == 200 <==>
      WellFormedLogin(request) && LookUpIntended(users, LoginField(request.value)).Some? &&
      CheckPasswordHash(LookUpIntended(users, LoginField(request.value)).value.passwordHash, Get(request.value, "password"))
    ensures r.status == 200 ==>
      exists u :: u in users && r.body == UserBody(LoginMessage, Info(u)) &&
                  CheckPasswordHash(u.passwordHash, Get(request.value, "password"))
    ensures r.status != 200 && r.status != 400 ==> r == Response(401, ErrorBody(InvalidCredentialsError))
  {
    match LoginPrecheck(request)
    case Some(rejected) => rejected
    case None => Authenticate(LookUpIntended(users, LoginField(request.value)), Get(request.value, "password"))
  }

  /** A well-formed login request whose corrected lookup finds a row with the right password logs in as
      that row. */
  lemma LoginIntendedFinds(users: seq<UserRow>, field: string, password: string, row: UserRow)
    requires PyUnpadded(field) && field != "" && password != ""
    requires LookUpIntended(users, field) == Some(row) && CheckPasswordHash(row.passwordHash, password)
    ensures LoginIntended(users, LoginRequest(field, password)) == Response(200, UserBody(LoginMessage, Info(row)))
  {
    LoginRequestFields(field, password);
    TrimNoop(field, IsPySpace);
  }

  /** With the corrected lookup every account can log in by its username. */
  lemma SignupThenLoginByUsernameIntended(users: seq<UserRow>, input: SignupInput, id: int, salt: string)
    requires Accepted(users, input) && StrippedUsername(input)
    ensures LoginIntended(users + [NewRow(id, input, salt)], LoginRequest(input.username, input.password))
            == Response(200, UserBody(LoginMessage, Info(NewRow(id, input, salt))))
  {
    var row := NewRow(id, input, salt);
    FindByAppendedAccepted(users, input, row, UsernameColumn);
    assert LookUpIntended(users + [row], input.username) == Some(row);
    LoginIntendedFinds(users + [row], input.username, input.password, row);
  }

  /** With the corrected lookup an account still logs in by its email whenever no account, itself
      included, has that email as its username. */
  lemma SignupThenLoginByEmailIntended(users: seq<UserRow>, input: SignupInput, id: int, salt: string)
    requires Accepted(users, input) && NormalEmail(input)
    requires !Taken(users, UsernameColumn, input.email) && input.email != input.username
    ensures LoginIntended(users + [NewRow(id, input, salt)], LoginRequest(input.email, input.password))
            == Response(200, UserBody(LoginMessage, Info(NewRow(id, input, salt))))
  {
    var row := NewRow(id, input, salt);
    var t := users + [row];
    FindByAppendedAccepted(users, input, row, EmailColumn);
    forall i | 0 <= i < |t| ensures ColumnValue(t[i], UsernameColumn) != input.email {
      if i < |users| {
        assert t[i] == users[i];
      }
    }
    assert FindBy(t, UsernameColumn, input.email).None?;
    ValidEmailLength(input.email);
    assert LookUpIntended(t, input.email) == Some(row);
    LoginIntendedFinds(t, input.email, input.password, row);
  }
}
