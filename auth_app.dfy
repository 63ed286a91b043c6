/** The Flask back end: credential validation, the register and login
    decisions over the users table, and the upload bookkeeping. The SQLite
    table is an abstract set of records; the regular expressions are written
    out as predicates over characters. */
module AuthApp {
  import opened Outcomes

  const InvalidEmail := "❌ Invalid email format."
  const WeakPassword := "❌ Password must be at least 8 characters long, include upper & lowercase letters, a number, and a special character."
  const Mismatch := "❌ Passwords do not match."
  const EmailTaken := "❌ User with this email already exists."
  const Registered := "✅ Registration successful!"
  const LoggedIn := "✅ Login successful!"
  const BadLogin := "❌ Invalid email or password"

  // ---------------------------------------------------------------------
  // The e-mail pattern `^[^@]+@[^@]+\.[^@]+$`

  predicate NoAt(s: string) {
    forall i :: 0 <= i < |s| ==> s[i] != '@'
  }

  /** s is matched in full by `[^@]+@[^@]+\.[^@]+`: a non-empty run without
      '@', the '@' at i, a non-empty run without '@', the '.' at j, and a
      non-empty run without '@'. */
  predicate EmailBody(s: string) {
    exists i, j :: 0 < i && i + 1 < j && j + 1 < |s| && s[i] == '@' && s[j] == '.'
      && NoAt(s[..i]) && NoAt(s[i + 1..j]) && NoAt(s[j + 1..])
  }

  /** `re.match` of the pattern: `^` anchors at the start, and `$` matches at
      the end or just before one final newline. */
  predicate EmailPattern(s: string) {
    EmailBody(s) || (|s| > 0 && s[|s| - 1] == '\n' && EmailBody(s[..|s| - 1]))
  }

  /** The e-mail test of validate_credentials: `'@' in email` and the pattern. */
  predicate EmailAccepted(email: string) {
    '@' in email && EmailPattern(email)
  }

  /** The accepted addresses described without the pattern: exactly one '@',
      not at the start, and a '.' after it that neither follows the '@'
      directly nor ends the address. The separate `'@' in email` test and the
      `$` before a final newline change nothing. */
  lemma EmailAcceptedIff(email: string)
    ensures EmailAccepted(email) <==> EmailShape(email)
  {
    EmailNewlineChangesNothing(email);
    if EmailBody(email) {
      EmailBodyHasShape(email);
    }
    if EmailShape(email) {
      EmailShapeIsBody(email);
    }
  }

  predicate EmailShape(email: string) {
    multiset(email)['@'] == 1
    && 0 < LastAt(email)
    && exists k :: LastAt(email) + 1 < k < |email| - 1 && email[k] == '.'
  }

  lemma EmailBodyHasShape(email: string)
    requires EmailBody(email)
    ensures EmailShape(email)
  {
    var i, j :| 0 < i && i + 1 < j && j + 1 < |email| && email[i] == '@' && email[j] == '.'
      && NoAt(email[..i]) && NoAt(email[i + 1..j]) && NoAt(email[j + 1..]);
    forall m | i < m < |email| ensures email[m] != '@' {
      if m < j {
        assert email[m] == email[i + 1..j][m - i - 1];
      } else if m > j {
        assert email[m] == email[j + 1..][m - j - 1];
      }
    }
    assert NoAt(email[i + 1..]);
    SplitAt(email, i);
    NoAtCount(email[..i]);
    NoAtCount(email[i + 1..]);
    LastAtOf(email, i);
  }

  lemma EmailShapeIsBody(email: string)
    requires EmailShape(email)
    ensures EmailBody(email)
  {
    var i := LastAt(email);
    var k :| i + 1 < k < |email| - 1 && email[k] == '.';
    SplitAt(email, i);
    CountNoAt(email[..i]);
    CountNoAt(email[i + 1..]);
    assert email[i + 1..k] == email[i + 1..][..k - i - 1];
    assert email[k + 1..] == email[i + 1..][k - i..];
    assert NoAt(email[..i]) && NoAt(email[i + 1..k]) && NoAt(email[k + 1..]);
  }

  function LastAt(s: string): (i: int)
    ensures -1 <= i < |s|
    ensures i >= 0 ==> s[i] == '@'
    ensures forall j :: i < j < |s| ==> s[j] != '@'
  {
    if s == [] then -1 else if s[|s| - 1] == '@' then |s| - 1 else LastAt(s[..|s| - 1])
  }

  lemma LastAtOf(s: string, i: int)
    requires 0 <= i < |s| && s[i] == '@'
    requires forall j :: i < j < |s| ==> s[j] != '@'
    ensures LastAt(s) == i
  {
  }

  lemma SplitAt(s: string, i: int)
    requires 0 <= i < |s|
    ensures s == s[..i] + [s[i]] + s[i + 1..]
    ensures multiset(s) == multiset(s[..i]) + multiset{s[i]} + multiset(s[i + 1..])
  {
    assert s == s[..i] + [s[i]] + s[i + 1..];
  }

  lemma NoAtCount(s: string)
    requires NoAt(s)
    ensures multiset(s)['@'] == 0
  {
  }

  lemma CountNoAt(s: string)
    requires multiset(s)['@'] == 0
    ensures NoAt(s)
  {
    forall i | 0 <= i < |s| ensures s[i] != '@' {
      assert s[i] in multiset(s);
    }
  }

  /** A final newline never decides the e-mail test: the last run of the
      pattern may itself take the newline. */
  lemma EmailNewlineChangesNothing(s: string)
    ensures EmailPattern(s) <==> EmailBody(s)
    ensures EmailBody(s) ==> '@' in s
  {
    if |s| > 0 && s[|s| - 1] == '\n' && EmailBody(s[..|s| - 1]) {
      BodyWithNewline(s[..|s| - 1]);
      assert s[..|s| - 1] + "\n" == s;
    }
    if EmailBody(s) {
      BodyHasAt(s);
    }
  }

  /** `[^@]+` at the end also takes a newline. */
  lemma BodyWithNewline(t: string)
    requires EmailBody(t)
    ensures EmailBody(t + "\n")
  {
    var s := t + "\n";
    var i, j :| 0 < i && i + 1 < j && j + 1 < |t| && t[i] == '@' && t[j] == '.'
      && NoAt(t[..i]) && NoAt(t[i + 1..j]) && NoAt(t[j + 1..]);
    assert s[..i] == t[..i] && s[i + 1..j] == t[i + 1..j];
    assert s[j + 1..] == t[j + 1..] + "\n";
    assert s[i] == '@' && s[j] == '.';
  }

  lemma BodyHasAt(s: string)
    requires EmailBody(s)
    ensures '@' in s
  {
    var i, j :| 0 < i && i + 1 < j && j + 1 < |s| && s[i] == '@' && s[j] == '.'
      && NoAt(s[..i]) && NoAt(s[i + 1..j]) && NoAt(s[j + 1..]);
    assert s[i] in s;
  }

  // ---------------------------------------------------------------------
  // The password pattern `^(?=.*[a-z])(?=.*[A-Z])(?=.*\d)(?=.*[!@#$%^&*]).{8,}$`

  /** The four character classes the look-aheads ask for. */
  datatype CharClass = LowerLetter | UpperLetter | Digit | Special

  predicate InClass(k: CharClass, c: char) {
    match k
    case LowerLetter => 'a' <= c <= 'z'
    case UpperLetter => 'A' <= c <= 'Z'
    case Digit => '0' <= c <= '9'
    case Special => c in "!@#$%^&*"
  }

  predicate NoNewline(s: string) {
    forall i :: 0 <= i < |s| ==> s[i] != '\n'
  }

  /** `(?=.*X)` at the start: a character of class k reachable over
      characters that `.` matches, that is, before the first newline. */
  predicate LookAhead(p: string, k: CharClass) {
    exists i :: 0 <= i < |p| && NoNewline(p[..i]) && InClass(k, p[i])
  }

  /** `.{8,}$` at the start: at least eight non-newline characters, then the
      end or one final newline. */
  predicate LongLine(p: string) {
    exists n :: 8 <= n <= |p| && NoNewline(p[..n]) && (n == |p| || (n == |p| - 1 && p[n] == '\n'))
  }

  predicate PasswordPattern(p: string) {
    LookAhead(p, LowerLetter) && LookAhead(p, UpperLetter) && LookAhead(p, Digit)
    && LookAhead(p, Special) && LongLine(p)
  }

  /** The text of a password without its one optional final newline. */
  function Line(p: string): (l: string)
    ensures l == p || (p == l + "\n")
  {
    if |p| > 0 && p[|p| - 1] == '\n' then p[..|p| - 1] else p
  }

  predicate Contains(s: string, k: CharClass) {
    exists i :: 0 <= i < |s| && InClass(k, s[i])
  }

  /** The strength rule in words: apart from one optional final newline, at
      least eight characters and no newline, with a lower-case letter, an
      upper-case letter, a digit and one of `!@#$%^&*` among them. */
  predicate PasswordStrong(p: string) {
    var l := Line(p);
    |l| >= 8 && NoNewline(l)
    && Contains(l, LowerLetter) && Contains(l, UpperLetter) && Contains(l, Digit) && Contains(l, Special)
  }

  lemma PasswordPatternIff(p: string)
    ensures PasswordPattern(p) <==> PasswordStrong(p)
  {
    if LongLine(p) {
      var n :| 8 <= n <= |p| && NoNewline(p[..n]) && (n == |p| || (n == |p| - 1 && p[n] == '\n'));
      LineOfLongLine(p, n);
      forall k: CharClass | LookAhead(p, k) ensures Contains(Line(p), k) {
        LookAheadInLine(p, n, k);
      }
    }
    if PasswordStrong(p) {
      StrongIsLongLine(p);
      forall k: CharClass | Contains(Line(p), k) ensures LookAhead(p, k) {
        ContainsLookAhead(p, k);
      }
    }
  }

  /** The eight or more characters `.{8,}$` takes are the password's line. */
  lemma LineOfLongLine(p: string, n: nat)
    requires 8 <= n <= |p| && NoNewline(p[..n]) && (n == |p| || (n == |p| - 1 && p[n] == '\n'))
    ensures Line(p) == p[..n]
  {
    if n == |p| {
      assert p[..n][|p| - 1] == p[|p| - 1];
      assert p[..n] == p;
    }
  }

  lemma ClassNotNewline(k: CharClass, c: char)
    requires InClass(k, c)
    ensures c != '\n'
  {
  }

  /** A look-ahead finds its character inside the line. */
  lemma LookAheadInLine(p: string, n: nat, k: CharClass)
    requires 8 <= n <= |p| && NoNewline(p[..n]) && (n == |p| || (n == |p| - 1 && p[n] == '\n'))
    requires LookAhead(p, k)
    ensures Contains(p[..n], k)
  {
    var i :| 0 <= i < |p| && NoNewline(p[..i]) && InClass(k, p[i]);
    ClassNotNewline(k, p[i]);
    assert i < n;
    assert p[..n][i] == p[i];
  }

  lemma StrongIsLongLine(p: string)
    requires PasswordStrong(p)
    ensures LongLine(p)
  {
    var l := Line(p);
    assert p[..|l|] == l;
  }

  /** A character of the line is found by the look-ahead. */
  lemma ContainsLookAhead(p: string, k: CharClass)
    requires NoNewline(Line(p)) && Contains(Line(p), k)
    ensures LookAhead(p, k)
  {
    var l := Line(p);
    var i :| 0 <= i < |l| && InClass(k, l[i]);
    assert p[..i] == l[..i];
    forall j | 0 <= j < i ensures l[..i][j] != '\n' {
      assert l[..i][j] == l[j];
    }
    assert p[i] == l[i];
  }

  // ---------------------------------------------------------------------
  // validate_credentials

  function ValidateCredentials(email: string, password: string, repeat: Option<string>): seq<string>
  {
    (if !EmailAccepted(email) then [InvalidEmail] else [])
    + (if !PasswordPattern(password) then [WeakPassword] else [])
    + (if repeat.Some? && password != repeat.value then [Mismatch] else [])
  }

  /** Position of an error message in the order the checks run. */
  function Rank(e: string): nat {
    if e == InvalidEmail then 0 else if e == WeakPassword then 1 else 2
  }

  /** No error means all three checks pass; each error is present exactly
      when its check fails; the errors come in the fixed order e-mail,
      password, mismatch, each at most once. */
  lemma ValidateCredentialsCorrect(email: string, password: string, repeat: Option<string>)
    ensures var errors := ValidateCredentials(email, password, repeat);
            && (errors == [] <==>
                  EmailAccepted(email) && PasswordStrong(password)
                  && (repeat.None? || repeat.value == password))
            && (InvalidEmail in errors <==> !EmailAccepted(email))
            && (WeakPassword in errors <==> !PasswordStrong(password))
            && (Mismatch in errors <==> repeat.Some? && repeat.value != password)
            && |errors| <= 3
            && forall i, j :: 0 <= i < j < |errors| ==> Rank(errors[i]) < Rank(errors[j])
  {
    PasswordPatternIff(password);
  }

  // ---------------------------------------------------------------------
  // The users table and the two API decisions

  /** One row of the users table (the id column is not modelled). */
  datatype User = User(name: string, email: string, password: string)

  /** The e-mail column is UNIQUE. */
  predicate UniqueEmails(users: set<User>) {
    forall u, v :: u in users && v in users && u.email == v.email ==> u == v
  }

  predicate HasEmail(users: set<User>, email: string) {
    exists u :: u in users && u.email == email
  }

  /** The JSON body of a request; a key it lacks reads as None (`data.get`). */
  datatype Credentials = Credentials(name: Option<string>, email: Option<string>,
                                     password: Option<string>, repeat: Option<string>)

  /** What a route answers: success with a message, a JSON error list with its
      status code, or an uncaught exception (status 500). */
  datatype ApiReply = Succeeded(message: string) | Refused(status: nat, errors: seq<string>) | Crashed

  /** api_register over the table: the reply and the table afterwards. A
      missing e-mail or password makes validate_credentials raise; a missing
      name makes the NOT NULL insert raise after the checks. */
  function Register(users: set<User>, req: Credentials): (ApiReply, set<User>)
  {
    if req.email.None? || req.password.None? then (Crashed, users)
    else
      var errors := ValidateCredentials(req.email.value, req.password.value, req.repeat);
      if errors != [] then (Refused(400, errors), users)
      else if HasEmail(users, req.email.value) then (Refused(400, [EmailTaken]), users)
      else if req.name.None? then (Crashed, users)
      else (Succeeded(Registered), users + {User(req.name.value, req.email.value, req.password.value)})
  }

  predicate LoginMatches(users: set<User>, email: Option<string>, password: Option<string>) {
    exists u :: u in users && email == Some(u.email) && password == Some(u.password)
  }

  /** api_login: a NULL parameter matches no row. */
  function Login(users: set<User>, email: Option<string>, password: Option<string>): ApiReply
  {
    if LoginMatches(users, email, password) then Succeeded(LoggedIn) else Refused(401, [BadLogin])
  }

  /** The register decision: a validation error or a known e-mail stores
      nothing and answers 400; success stores exactly the one new record. */
  lemma RegisterDecision(users: set<User>, req: Credentials)
    ensures var (reply, after) := Register(users, req);
            && (reply.Succeeded? <==>
                  req.name.Some? && req.email.Some? && req.password.Some?
                  && ValidateCredentials(req.email.value, req.password.value, req.repeat) == []
                  && !HasEmail(users, req.email.value))
            && (reply.Succeeded? ==>
                  (after == users + {User(req.name.value, req.email.value, req.password.value)}
                   && |after| == |users| + 1))
            && (!reply.Succeeded? ==> after == users)
            && (reply.Refused? ==> reply.status == 400 && reply.errors != [])
  {
    var (reply, after) := Register(users, req);
    if reply.Succeeded? {
      var u := User(req.name.value, req.email.value, req.password.value);
      assert u !in users;
    }
  }

  /** Registration keeps the e-mail column unique. */
  lemma RegisterKeepsEmailsUnique(users: set<User>, req: Credentials)
    requires UniqueEmails(users)
    ensures UniqueEmails(Register(users, req).1)
  {
  }

  /** Login succeeds exactly when some stored record has that e-mail and that
      password; a successful registration can log in at once, and the same
      registration a second time is refused. */
  lemma LoginAfterRegister(users: set<User>, req: Credentials)
    ensures Login(users, req.email, req.password).Succeeded? <==>
              exists u :: u in users && req.email == Some(u.email) && req.password == Some(u.password)
    ensures Register(users, req).0.Succeeded? ==>
              var after := Register(users, req).1;
              Login(after, req.email, req.password) == Succeeded(LoggedIn)
              && Register(after, req) == (Refused(400, [EmailTaken]), after)
  {
    if Register(users, req).0.Succeeded? {
      var after := Register(users, req).1;
      var u := User(req.name.value, req.email.value, req.password.value);
      assert u in after;
      assert LoginMatches(after, req.email, req.password);
      assert HasEmail(after, req.email.value);
    }
  }

  /** The users table with the three helpers that query and insert. */
  class UserTable {
    var users: set<User>

    constructor()
      ensures users == {}
    {
      users := {};
    }

    /** user_exists: `SELECT * FROM users WHERE email = ?`. */
    method UserExists(email: string) returns (found: bool)
      ensures found <==> HasEmail(users, email)
    {
      found := exists u :: u in users && u.email == email;
    }

    /** save_user: the INSERT raises for a NULL name or an e-mail already
        present (NOT NULL and UNIQUE) and then stores nothing. */
    method SaveUser(name: Option<string>, email: string, password: string) returns (saved: bool)
      modifies this
      ensures saved <==> name.Some? && !HasEmail(old(users), email)
      ensures users == if saved then old(users) + {User(name.value, email, password)} else old(users)
    {
      var taken := UserExists(email);
      if name.None? || taken {
        saved := false;
      } else {
        users := users + {User(name.value, email, password)};
        saved := true;
      }
    }

    /** check_login: `SELECT * FROM users WHERE email = ? AND password = ?`. */
    method CheckLogin(email: Option<string>, password: Option<string>) returns (ok: bool)
      ensures ok <==> LoginMatches(users, email, password)
    {
      ok := exists u :: u in users && email == Some(u.email) && password == Some(u.password);
    }

    method ApiRegister(req: Credentials) returns (reply: ApiReply)
      modifies this
      ensures (reply, users) == Register(old(users), req)
    {
      if req.email.None? || req.password.None? {
        return Crashed;
      }
      var errors := ValidateCredentials(req.email.value, req.password.value, req.repeat);
      if errors != [] {
        return Refused(400, errors);
      }
      var taken := UserExists(req.email.value);
      if taken {
        return Refused(400, [EmailTaken]);
      }
      var saved := SaveUser(req.name, req.email.value, req.password.value);
      reply := if saved then Succeeded(Registered) else Crashed;
    }

    method ApiLogin(email: Option<string>, password: Option<string>) returns (reply: ApiReply)
      ensures reply == Login(users, email, password)
    {
      var ok := CheckLogin(email, password);
      reply := if ok then Succeeded(LoggedIn) else Refused(401, [BadLogin]);
    }
  }

  // ---------------------------------------------------------------------
  // upload

  datatype FileEntry = FileEntry(name: string, tag: string)

  /** The tag an uploaded file gets from the form's type field. */
  function UploadTag(fileType: string): (tag: string)
    ensures tag == "rfp" <==> fileType == "document"
    ensures tag == "rfp" || tag == "rfi"
  {
    if fileType == "document" then "rfp" else "rfi"
  }

  /** The module-level list of uploaded files. */
  class UploadList {
    var files: seq<FileEntry>

    constructor()
      ensures files == []
    {
      files := [];
    }

    /** upload: a missing file part or type field is a 400 before anything
        happens; a failed save raises; otherwise exactly one entry is
        appended. `saveSucceeds` stands for writing the file to disk. */
    method Upload(fileName: Option<string>, fileType: Option<string>, saveSucceeds: bool)
      returns (reply: ApiReply)
      modifies this
      ensures fileName.None? || fileType.None? ==> reply == Refused(400, []) && files == old(files)
      ensures fileName.Some? && fileType.Some? && !saveSucceeds ==> reply == Crashed && files == old(files)
      ensures fileName.Some? && fileType.Some? && saveSucceeds ==>
                reply == Succeeded("✅ File '" + fileName.value + "' uploaded successfully.")
                && files == old(files) + [FileEntry(fileName.value, UploadTag(fileType.value))]
    {
      if fileName.None? || fileType.None? {
        return Refused(400, []);
      }
      if !saveSucceeds {
        return Crashed;
      }
      var tag := if fileType.value == "document" then "rfp" else "rfi";
      files := files + [FileEntry(fileName.value, tag)];
      reply := Succeeded("✅ File '" + fileName.value + "' uploaded successfully.");
    }
  }
}
