/** The account rules of server/index.ts: the invitation whitelist (stored lower-cased,
    without repeats), registration and login. The users and whitelist JSON files are fields
    that hold `None` when the file is missing or unreadable; bcrypt and JWT are inputs. */
module Accounts {
  import opened Wrappers
  import opened Text

  datatype UserRecord = UserRecord(email: string, passwordHash: string)

  /** One element of an uploaded `emails` array: a string, or any other JSON value. */
  datatype Entry = Str(s: string) | NotString

  /** An HTTP status and the `message` of the JSON body. */
  datatype Reply = Reply(status: int, message: string)

  /** A login either fails with a reply or returns a signed token. */
  datatype LoginReply = Refused(reply: Reply) | Token(token: string)

  /** What `readWhitelist` falls back to when the file cannot be read. */
  const DefaultWhitelist: seq<string> := ["admin@qom.com"]

  const MissingFields: Reply := Reply(400, "Email and password required")
  const NotInvited: Reply := Reply(403, "Registration is by invitation only. Please contact an administrator.")
  const AlreadyRegistered: Reply := Reply(400, "Email already registered")
  const Registered: Reply := Reply(201, "Registered successfully")
  const InvalidCredentials: Reply := Reply(400, "Invalid credentials")

  predicate NoRepeats(s: seq<string>) {
    forall i, j :: 0 <= i < j < |s| ==> s[i] != s[j]
  }

  // ---------- whitelist ----------

  /** The whitelist after `addToWhitelist(email)`. */
  function WithEmail(list: seq<string>, email: string): (r: seq<string>)
    ensures Lower(email) in r
    ensures list <= r && |r| <= |list| + 1
    ensures Lower(email) in list ==> r == list
    ensures NoRepeats(list) ==> NoRepeats(r)
  {
    if Lower(email) in list then list else list + [Lower(email)]
  }

  /** An uploaded entry the bulk loop takes: `email && typeof email === 'string'`. */
  predicate Accepted(e: Entry) {
    e.Str? && e.s != ""
  }

  /** One step of the bulk upload loop. */
  function UploadStep(list: seq<string>, e: Entry): seq<string> {
    if Accepted(e) && Lower(e.s) !in list then list + [Lower(e.s)] else list
  }

  /** The whitelist after the bulk upload loop has run over `emails`, in order. */
  function Uploaded(list: seq<string>, emails: seq<Entry>): seq<string>
    decreases |emails|
  {
    if |emails| == 0 then list
    else UploadStep(Uploaded(list, emails[..|emails| - 1]), emails[|emails| - 1])
  }

  /** The bulk upload keeps the old list in front and only appends; what it appends is the
      lower-cased form of accepted entries, never one already present (even within one
      batch), and every accepted entry ends up on the list. */
  lemma {:induction false} UploadedSpec(list: seq<string>, emails: seq<Entry>)
    ensures var r := Uploaded(list, emails);
      list <= r &&
      (NoRepeats(list) ==> NoRepeats(r)) &&
      (forall k :: |list| <= k < |r| ==> (IsLowerCase(r[k]) &&
         exists i :: 0 <= i < |emails| && Accepted(emails[i]) && r[k] == Lower(emails[i].s))) &&
      (forall i :: 0 <= i < |emails| && Accepted(emails[i]) ==> Lower(emails[i].s) in r)
    decreases |emails|
  {
    if |emails| > 0 {
      var init := emails[..|emails| - 1];
      var e := emails[|emails| - 1];
      UploadedSpec(list, init);
      var prev := Uploaded(list, init);
      assert forall k :: |list| <= k < |prev| ==>
        exists i :: 0 <= i < |init| && Accepted(init[i]) && prev[k] == Lower(init[i].s);
      var r := Uploaded(list, emails);
      assert r == UploadStep(prev, e);
      forall k | |list| <= k < |r|
        ensures IsLowerCase(r[k]) &&
          exists i :: 0 <= i < |emails| && Accepted(emails[i]) && r[k] == Lower(emails[i].s)
      {
        if k < |prev| {
          var i :| 0 <= i < |init| && Accepted(init[i]) && prev[k] == Lower(init[i].s);
          assert emails[i] == init[i];
        } else {
          assert r[k] == Lower(e.s);
          assert emails[|emails| - 1] == e;
        }
      }
      forall i | 0 <= i < |emails| && Accepted(emails[i]) ensures Lower(emails[i].s) in r {
        if i < |emails| - 1 {
          assert emails[i] == init[i];
        }
      }
    }
  }

  /** Adding an email twice leaves the list as adding it once. */
  lemma {:induction false} WithEmailIdempotent(list: seq<string>, email: string)
    ensures WithEmail(WithEmail(list, email), email) == WithEmail(list, email)
  {
  }

  // ---------- users ----------

  /** `users.find(u => u.email === email)`: the first user with exactly this email. */
  function FindUser(users: seq<UserRecord>, email: string): (r: Option<nat>)
    ensures r.Some? ==> (r.value < |users| && users[r.value].email == email &&
      forall j :: 0 <= j < r.value ==> users[j].email != email)
    ensures r.None? ==> forall j :: 0 <= j < |users| ==> users[j].email != email
  {
    if |users| == 0 then None
    else if users[0].email == email then Some(0)
    else match FindUser(users[1..], email)
      case None => None
      case Some(i) => Some(i + 1)
  }

  /** The stored files the account handlers read and write. */
  class AccountFiles {
    var usersFile: Option<seq<UserRecord>>
    var whitelistFile: Option<seq<string>>

    constructor (usersFile: Option<seq<UserRecord>>, whitelistFile: Option<seq<string>>)
      ensures this.usersFile == usersFile && this.whitelistFile == whitelistFile
    {
      this.usersFile := usersFile;
      this.whitelistFile := whitelistFile;
    }

    /** `readUsers` */
    function Users(): seq<UserRecord>
      reads this
    {
      usersFile.GetOr([])
    }

    /** `readWhitelist().allowedEmails` */
    function Whitelist(): seq<string>
      reads this
    {
      whitelistFile.GetOr(DefaultWhitelist)
    }

    /** `isEmailWhitelisted`: the lower-cased email is on the list. */
    predicate IsEmailWhitelisted(email: string)
      reads this
    {
      Lower(email) in Whitelist()
    }

    /** The check ignores case: an email, its lower-cased and its upper-cased forms are
        all listed or all not. */
    lemma WhitelistedIgnoresCase(email: string)
      ensures IsEmailWhitelisted(Lower(email)) == IsEmailWhitelisted(email)
      ensures IsEmailWhitelisted(Upper(email)) == IsEmailWhitelisted(email)
    {
      assert Lower(Lower(email)) == Lower(email);
      assert forall i :: 0 <= i < |email| ==> Lower(Upper(email))[i] == Lower(email)[i];
      assert Lower(Upper(email)) == Lower(email);
    }

    /** `addToWhitelist`: appends the lower-cased email unless it is already listed, and
        writes the file only then. */
    method AddToWhitelist(email: string)
      modifies this`whitelistFile
      ensures Lower(email) in old(Whitelist()) ==> whitelistFile == old(whitelistFile)
      ensures Lower(email) !in old(Whitelist()) ==> whitelistFile == Some(WithEmail(old(Whitelist()), email))
      ensures Whitelist() == WithEmail(old(Whitelist()), email)
      ensures IsEmailWhitelisted(email)
    {
      var list := Whitelist();
      if Lower(email) !in list {
        list := list + [Lower(email)];
        whitelistFile := Some(list);
      }
      assert Lower(Lower(email)) == Lower(email);
    }

    /** `POST /api/admin/whitelist/add` */
    method AddRoute(email: Option<string>) returns (reply: Reply)
      modifies this`whitelistFile
      ensures Missing(email) ==> reply == Reply(400, "Email required") && whitelistFile == old(whitelistFile)
      ensures !Missing(email) ==> (reply == Reply(200, "Email added to whitelist") &&
        Whitelist() == WithEmail(old(Whitelist()), email.value))
    {
      if Missing(email) {
        return Reply(400, "Email required");
      }
      AddToWhitelist(email.value);
      reply := Reply(200, "Email added to whitelist");
    }

    /** `POST /api/admin/whitelist/upload`: one pass over the array, then one write. The
        reply counts every element sent, taken or not. */
    method UploadRoute(emails: Option<seq<Entry>>) returns (reply: Reply)
      modifies this`whitelistFile
      ensures emails.None? ==> reply == Reply(400, "Emails array required") && whitelistFile == old(whitelistFile)
      ensures emails.Some? ==> (reply == Reply(200, "Added " + NatToString(|emails.value|) + " emails to whitelist") &&
        whitelistFile == Some(Uploaded(old(Whitelist()), emails.value)))
    {
      if emails.None? {
        return Reply(400, "Emails array required");
      }
      var batch := emails.value;
      var list := Whitelist();
      ghost var start := list;
      var i := 0;
      while i < |batch|
        invariant 0 <= i <= |batch|
        invariant list == Uploaded(start, batch[..i])
      {
        assert batch[..i + 1][..i] == batch[..i];
        var e := batch[i];
        if e.Str? && e.s != "" && Lower(e.s) !in list {
          list := list + [Lower(e.s)];
        }
        i := i + 1;
      }
      assert batch[..i] == batch;
      whitelistFile := Some(list);
      reply := Reply(200, "Added " + NatToString(|batch|) + " emails to whitelist");
    }

    /** `POST /api/register`: missing field, then the whitelist (case-insensitive), then an
        exact duplicate; otherwise exactly one user is appended. */
    method Register(email: Option<string>, password: Option<string>, passwordHash: string)
      returns (reply: Reply)
      modifies this`usersFile
      ensures Missing(email) || Missing(password) ==> reply == MissingFields
      ensures !Missing(email) && !Missing(password) && !IsEmailWhitelisted(email.value) ==>
        reply == NotInvited
      ensures (!Missing(email) && !Missing(password) && IsEmailWhitelisted(email.value) &&
        FindUser(old(Users()), email.value).Some?) ==> reply == AlreadyRegistered
      ensures reply != Registered ==> usersFile == old(usersFile)
      ensures reply == Registered <==>
        !Missing(email) && !Missing(password) && IsEmailWhitelisted(email.value) &&
        FindUser(old(Users()), email.value).None?
      ensures reply == Registered ==>
        usersFile == Some(old(Users()) + [UserRecord(email.value, passwordHash)])
    {
      if Missing(email) || Missing(password) {
        return MissingFields;
      }
      if !IsEmailWhitelisted(email.value) {
        return NotInvited;
      }
      var users := Users();
      if FindUser(users, email.value).Some? {
        return AlreadyRegistered;
      }
      users := users + [UserRecord(email.value, passwordHash)];
      usersFile := Some(users);
      reply := Registered;
    }

    /** `POST /api/login`: succeeds only for the first user with exactly this email, and
        only when the password matches that user's hash (`verify` is `bcrypt.compare`). */
    function Login(email: Option<string>, password: Option<string>,
                   verify: (string, string) -> bool, sign: string -> string): (r: LoginReply)
      reads this
      ensures Missing(email) || Missing(password) ==> r == Refused(MissingFields)
      ensures r.Token? <==>
        !Missing(email) && !Missing(password) &&
        exists i :: 0 <= i < |Users()| && Users()[i].email == email.value &&
          (forall j :: 0 <= j < i ==> Users()[j].email != email.value) &&
          verify(password.value, Users()[i].passwordHash)
      ensures r.Token? ==> r.token == sign(email.value)
    {
      if Missing(email) || Missing(password) then Refused(MissingFields)
      else match FindUser(Users(), email.value)
        case None => Refused(InvalidCredentials)
        case Some(i) =>
          if verify(password.value, Users()[i].passwordHash) then Token(sign(email.value))
          else Refused(InvalidCredentials)
    }
  }
}
