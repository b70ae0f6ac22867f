/** Start-up configuration (core/config.py). The environment variables are
    inputs: `None` stands for an unset variable. */
module Config {
  import opened Wrappers
  import opened Text

  const SYSTEM_NAME := "GhostDesk"

  /** What one piece contributes: itself stripped, or nothing when blank. */
  function Kept(piece: string): seq<string> {
    var u := Strip(piece);
    if u != [] then [u] else []
  }

  /** The comprehension's filter and map: each piece stripped, blank ones dropped. */
  function Cleaned(pieces: seq<string>): (r: seq<string>)
    ensures |r| <= |pieces|
  {
    if pieces == [] then [] else Kept(pieces[0]) + Cleaned(pieces[1..])
  }

  /** `ALLOWED_USERS`: the comma-separated pieces of the variable, stripped,
      with the blank ones dropped; an unset variable reads as "". */
  function ParseAllowedUsers(env: Option<string>): (users: seq<string>)
    ensures |users| <= |env.GetOr("")| + 1
  {
    Cleaned(Split(env.GetOr(""), ','))
  }

  /** Entries are exactly the non-blank stripped pieces. */
  lemma {:induction false} CleanedMembership(pieces: seq<string>, u: string)
    ensures u in Cleaned(pieces) <==> u != [] && exists p | p in pieces :: Strip(p) == u
  {
    if pieces != [] {
      CleanedMembership(pieces[1..], u);
      if exists p | p in pieces[1..] :: Strip(p) == u {
        var p :| p in pieces[1..] && Strip(p) == u;
        assert p in pieces;
      }
      if exists p | p in pieces :: Strip(p) == u {
        var p :| p in pieces && Strip(p) == u;
        if p != pieces[0] {
          assert p in pieces[1..];
        }
      }
    }
  }

  /** Cleaning keeps the order of the pieces: it distributes over concatenation. */
  lemma {:induction false} CleanedConcat(a: seq<string>, b: seq<string>)
    ensures Cleaned(a + b) == Cleaned(a) + Cleaned(b)
  {
    if a == [] {
      assert a + b == b;
    } else {
      assert (a + b)[0] == a[0];
      assert (a + b)[1..] == a[1..] + b;
      CleanedConcat(a[1..], b);
      ConcatAssoc(Kept(a[0]), Cleaned(a[1..]), Cleaned(b));
    }
  }

  /** No entry is blank or padded with whitespace. */
  lemma EntriesClean(env: Option<string>)
    ensures forall u | u in ParseAllowedUsers(env) :: u != [] && Strip(u) == u
  {
    forall u | u in ParseAllowedUsers(env)
      ensures u != [] && Strip(u) == u
    {
      CleanedMembership(Split(env.GetOr(""), ','), u);
      var p :| p in Split(env.GetOr(""), ',') && Strip(p) == u;
      StripUnchanged(u);
    }
  }

  /** An unset or empty variable gives no users. */
  lemma UnsetOrEmptyGivesNoUsers()
    ensures ParseAllowedUsers(None) == []
    ensures ParseAllowedUsers(Some("")) == []
  {
    assert Split("", ',') == [""];
    assert Strip("") == "";
  }

  /** Entries already clean round-trip through a comma-joined variable,
      in order. */
  lemma {:induction false} AllowedUsersRoundTrip(users: seq<string>)
    requires forall u | u in users :: u != [] && !IsSpace(u[0]) && !IsSpace(u[|u| - 1])
    requires forall u | u in users :: Lacks(u, ',')
    ensures ParseAllowedUsers(Some(Join(",", users))) == users
  {
    if users == [] {
      assert Split("", ',') == [""];
      assert Strip("") == "";
    } else {
      SplitJoin(users, ',');
      CleanedIdentity(users);
    }
  }

  lemma {:induction false} CleanedIdentity(users: seq<string>)
    requires forall u | u in users :: u != [] && !IsSpace(u[0]) && !IsSpace(u[|u| - 1])
    ensures Cleaned(users) == users
  {
    if users != [] {
      StripUnchanged(users[0]);
      CleanedIdentity(users[1..]);
    }
  }

  /** What `validate` does: raise, print a warning and return, or return. */
  datatype Outcome = Raised(message: string) | Warned(message: string) | Passed

  const MISSING_TOKEN := "Missing TELEGRAM_TOKEN in .env"
  const NO_USERS_WARNING := "WARNING: No ALLOWED_USERS defined. The bot will reject everyone."

  /** `Config.validate`: raises exactly when the token is empty; with a token
      and no users it only warns. */
  function Validate(token: string, users: seq<string>): (o: Outcome)
    ensures o.Raised? <==> token == []
    ensures o.Raised? ==> o.message == MISSING_TOKEN
    ensures o.Warned? <==> token != [] && users == []
    ensures o.Warned? ==> o.message == NO_USERS_WARNING
  {
    if token == [] then Raised(MISSING_TOKEN)
    else if users == [] then Warned(NO_USERS_WARNING)
    else Passed
  }

  /** An unset token variable reads as "", so it raises. */
  lemma UnsetTokenRaises(users: Option<string>)
    ensures Validate(None.GetOr(""), ParseAllowedUsers(users)) == Raised(MISSING_TOKEN)
  {
  }
}
