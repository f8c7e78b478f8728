/** src/pages/LoginPage.tsx: the demo sign-in derives a display name and an admin flag
    from the email alone and always hands over the same token. */
module LoginPage {
  import opened Text

  /** The tab the form is on. */
  datatype Mode = Login | Register

  /** The arguments `onLogin` receives. */
  datatype LoginCall = LoginCall(token: string, name: string, isAdmin: bool)

  const DemoToken: string := "demo-token"
  const DefaultName: string := "Friend"

  /** `email.split('@')[0]`: the longest prefix of `email` without '@'. */
  function LocalPart(email: string): (r: string)
    ensures |r| <= |email| && r == email[..|r|]
    ensures '@' !in r
    ensures |r| < |email| ==> email[|r|] == '@'
  {
    if |email| == 0 || email[0] == '@' then ""
    else [email[0]] + LocalPart(email[1..])
  }

  /** `name.charAt(0).toUpperCase() + name.slice(1).toLowerCase()` where `name` is the
      local part, or "Friend" when that is empty. */
  function DisplayName(email: string): string {
    var name := if LocalPart(email) != "" then LocalPart(email) else DefaultName;
    [UpperChar(name[0])] + Lower(name[1..])
  }

  predicate IsAdmin(email: string) {
    StartsWith(Lower(email), "admin") || EndsWith(Lower(email), "@admin.com")
  }

  /** `fakeLogin` */
  function FakeLogin(email: string): LoginCall {
    LoginCall(DemoToken, DisplayName(email), IsAdmin(email))
  }

  /** `handleSubmit`: whatever the tab and the password, the demo login goes through. */
  function HandleSubmit(mode: Mode, email: string, password: string): (r: LoginCall)
    ensures r.token == DemoToken
    ensures r == FakeLogin(email)
  {
    FakeLogin(email)
  }

  // ---------- what the derivation promises ----------

  /** The display name starts with the upper-cased first character of the text before the
      first '@' ("Friend" when there is none), is otherwise lower case, and keeps the length
      of that text; read case-insensitively it is that text. */
  lemma DisplayNameShape(email: string)
    ensures var local := LocalPart(email);
      var source := if local != "" then local else DefaultName;
      var name := DisplayName(email);
      |name| == |source| &&
      name[0] == UpperChar(source[0]) &&
      IsLowerCase(name[1..]) &&
      Lower(name) == Lower(source)
  {
    var local := LocalPart(email);
    var source := if local != "" then local else DefaultName;
    var name := DisplayName(email);
    assert name[1..] == Lower(source[1..]);
    assert LowerChar(UpperChar(source[0])) == LowerChar(source[0]);
    assert Lower(name)[0] == Lower(source)[0];
    forall i | 1 <= i < |name| ensures Lower(name)[i] == Lower(source)[i] {
      assert name[i] == LowerChar(source[i]);
    }
  }

  lemma {:induction false} LocalPartOfLower(email: string)
    ensures LocalPart(Lower(email)) == Lower(LocalPart(email))
  {
    if |email| > 0 && email[0] != '@' {
      assert Lower(email)[1..] == Lower(email[1..]);
      LocalPartOfLower(email[1..]);
      assert Lower([email[0]] + LocalPart(email[1..])) == [LowerChar(email[0])] + Lower(LocalPart(email[1..]));
    }
  }

  /** The derivation depends only on the lower-cased email: "Admin@X.com" and
      "admin@x.com" log in alike. */
  lemma CaseInsensitive(email: string)
    ensures FakeLogin(Lower(email)) == FakeLogin(email)
  {
    LocalPartOfLower(email);
    assert Lower(Lower(email)) == Lower(email);
    var local := LocalPart(email);
    if local != "" {
      var lowered := Lower(local);
      assert lowered[1..] == Lower(local[1..]);
      assert Lower(lowered[1..]) == Lower(local[1..]);
      assert UpperChar(lowered[0]) == UpperChar(local[0]);
    }
  }
}
