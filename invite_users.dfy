/**
 * The request handler of server/api/admin/invite-users.ts:57-160. For every entry of `users`
 * it checks the email, works out where the invitation should send the user, asks the auth
 * service to invite them and records a users row; then it reports how many invitations went
 * out. The auth service and the database are inputs: `outcomes(i)` is what they answered for
 * the `i`-th user. The requests go through the simple limiter (`InviteLimiter`), one per
 * valid email, in the order of `users`.
 */
module InviteUsers {
  import opened Strings

  /** The `email` property of a user entry, as JavaScript sees it: `Absent` is a falsy
      non-string (missing, `null`, `false`, `0`), `Other` a truthy value without `includes`. */
  datatype Email = Absent | Text(text: string) | Other

  /** An entry of `users`: `null`/`undefined`, or anything else, read through its `email`. */
  datatype User = NullUser | Entry(email: Email)

  datatype UsersField = UsersArray(users: seq<User>) | NotArray

  /** The parsed request body: none at all, or an object with a `users` property. */
  datatype Body = NoBody | Body(users: UsersField)

  /** What the `upsert` of the users row did. */
  datatype InsertOutcome = Inserted | InsertFailed | InsertThrew

  /** What `inviteUserByEmail` did, and then the insert. */
  datatype InviteOutcome = Invited(insert: InsertOutcome) | InviteFailed(message: string) | InviteThrew

  /** The invitation the handler asked the auth service to send. */
  datatype InviteRequest = InviteRequest(email: string, redirectTo: string)

  /** One entry of `results`: `Sent` has `success: true` and a `message`, `Failed` carries
      its `error`. */
  datatype InviteResult = Sent(email: Email, message: string) | Failed(email: Email, error: string) {
    predicate Success() { Sent? }
  }

  /** How one queued task ends: with a result, or by throwing (a `null` user). */
  datatype TaskOutcome = Returned(result: InviteResult) | Threw

  datatype Response =
    | Ok(success: bool, results: seq<InviteResult>, message: string)
    | Failure(statusCode: nat, statusMessage: string)

  const DefaultSiteUrl: string := "https://claims.gibraltar.ca"
  const InvalidEmail: string := "Invalid email"
  const UnknownError: string := "Unknown error during invitation"
  const SentMessage: string := "Invitation sent successfully"
  const FailureMessage: string := "Failed to send invitations"

  /** Line 89: an email is sent an invitation only if it is a non-empty string containing '@'. */
  predicate ValidEmail(e: Email) {
    e.Text? && e.text != "" && '@' in e.text
  }

  /** Lines 94-103. `configured` is `config.public.siteUrl` and `origin` and `host` are the
      request headers; the empty string stands for a missing one. */
  function SiteUrl(configured: string, origin: string, host: string): (r: string)
    ensures configured != "" ==> r == configured
    ensures configured == "" ==> StartsWith(r, "http")
    ensures configured == "" && origin == "" && host == "" ==> r == DefaultSiteUrl
  {
    if configured != "" then configured
    else
      var o := if origin != "" then origin else host;
      if o != "" then
        if StartsWith(o, "http") then o
        else StartsWithAppend("https://", o); assert StartsWith("https://", "http"); "https://" + o
      else
        assert StartsWith(DefaultSiteUrl, "http"); DefaultSiteUrl
  }

  /** Line 105. */
  function RedirectUrl(siteUrl: string): (r: string)
    ensures StartsWith(r, siteUrl) && r[|siteUrl|..] == "/signup"
  {
    StartsWithAppend(siteUrl, "/signup");
    assert (siteUrl + "/signup")[|siteUrl|..] == "/signup";
    siteUrl + "/signup"
  }

  /** A header that already names a scheme is used as it is, any other gets `https://`, and
      resolving a resolved URL again changes nothing. */
  lemma SiteUrlFromHeader(origin: string, host: string)
    ensures var o := if origin != "" then origin else host;
            && (o != "" && StartsWith(o, "http") ==> SiteUrl("", origin, host) == o)
            && (o != "" && !StartsWith(o, "http") ==> SiteUrl("", origin, host) == "https://" + o)
            && SiteUrl("", SiteUrl("", origin, host), host) == SiteUrl("", origin, host)
  {
  }

  /** The request made for `user`, if any (line 108). */
  function RequestFor(user: User, redirect: string): (r: seq<InviteRequest>)
    ensures |r| <= 1
    ensures r != [] <==> user.Entry? && ValidEmail(user.email)
    ensures r != [] ==> r[0] == InviteRequest(user.email.text, redirect)
  {
    if user.Entry? && ValidEmail(user.email) then [InviteRequest(user.email.text, redirect)] else []
  }

  /** The queued task for one user (lines 85-142). */
  function InviteTask(user: User, redirect: string, outcome: InviteOutcome): (r: TaskOutcome)
    ensures r.Threw? <==> user.NullUser?
    ensures r.Returned? ==> r.result.email == user.email
    ensures r.Returned? ==>
              (r.result.Success() <==> ValidEmail(user.email) && outcome.Invited? && outcome.insert != InsertThrew)
    ensures r.Returned? && r.result.Sent? ==> r.result.message == SentMessage
    ensures (user.Entry? && (user.email.Absent? || user.email == Text("") ||
                             (user.email.Text? && '@' !in user.email.text)))
              ==> r == Returned(Failed(user.email, InvalidEmail))
    ensures user.Entry? && ValidEmail(user.email) && outcome.InviteFailed? ==>
              r == Returned(Failed(user.email, outcome.message))
    ensures user.Entry? && ValidEmail(user.email) && (outcome.InviteThrew? || outcome == Invited(InsertThrew)) ==>
              r == Returned(Failed(user.email, UnknownError))
    ensures user == Entry(Other) ==> r == Returned(Failed(Other, UnknownError))
  {
    match user
    case NullUser => Threw
    case Entry(email) =>
      match email
      case Other => Returned(Failed(email, UnknownError))
      case Absent => Returned(Failed(email, InvalidEmail))
      case Text(s) =>
        if s == "" || '@' !in s then Returned(Failed(email, InvalidEmail))
        else
          match outcome
          case InviteFailed(message) => Returned(Failed(email, message))
          case InviteThrew => Returned(Failed(email, UnknownError))
          case Invited(insert) =>
            if insert == InsertThrew then Returned(Failed(email, UnknownError)) else Returned(Sent(email, SentMessage))
  }

  /** The invitations requested for `users`, in order. */
  function Requests(users: seq<User>, redirect: string): (r: seq<InviteRequest>)
    ensures |r| <= |users|
    decreases |users|
  {
    if users == [] then [] else Requests(users[..|users| - 1], redirect) + RequestFor(users[|users| - 1], redirect)
  }

  /** Line 146: how many results have `success` set. */
  function SuccessCount(results: seq<InviteResult>): (n: nat)
    ensures n <= |results|
    decreases |results|
  {
    if results == [] then 0 else SuccessCount(results[..|results| - 1]) + (if results[|results| - 1].Success() then 1 else 0)
  }

  /** At least one invitation went out exactly when some result is a success. */
  lemma {:induction false} SuccessCountPositive(results: seq<InviteResult>)
    ensures SuccessCount(results) > 0 <==> exists i :: 0 <= i < |results| && results[i].Success()
    decreases |results|
  {
    if results != [] {
      var init := results[..|results| - 1];
      SuccessCountPositive(init);
      if exists i :: 0 <= i < |init| && init[i].Success() {
        var i :| 0 <= i < |init| && init[i].Success();
        assert results[i] == init[i];
      }
      if exists i :: 0 <= i < |results| && results[i].Success() {
        var i :| 0 <= i < |results| && results[i].Success();
        if i < |init| {
          assert init[i] == results[i];
        }
      }
    }
  }

  /** Every invitation succeeded exactly when the count is the number of users. */
  lemma {:induction false} SuccessCountAll(results: seq<InviteResult>)
    ensures SuccessCount(results) == |results| <==> forall i :: 0 <= i < |results| ==> results[i].Success()
    decreases |results|
  {
    if results != [] {
      var init := results[..|results| - 1];
      SuccessCountAll(init);
      if forall i :: 0 <= i < |results| ==> results[i].Success() {
        forall i | 0 <= i < |init| ensures init[i].Success() {
          assert init[i] == results[i];
        }
      }
      if SuccessCount(results) == |results| {
        forall i | 0 <= i < |results| ensures results[i].Success() {
          if i < |init| {
            assert init[i] == results[i];
          }
        }
      }
    }
  }

  /** Line 151. */
  function Summary(successCount: nat, total: nat): string {
    "Successfully sent " + NatToString(successCount) + " of " + NatToString(total) + " invitations"
  }

  /** The summary names both counts, and they can be read back from it. */
  lemma SummaryReportsCounts(m: nat, n: nat, m': nat, n': nat)
    requires Summary(m, n) == Summary(m', n')
    ensures m == m' && n == n'
  {
    TwoNumerals("Successfully sent ", " of ", " invitations", m, n, m', n');
  }

  /** Two printed numbers, each followed by text that starts with a space, are read back. */
  lemma TwoNumerals(p: string, mid: string, suffix: string, m: nat, n: nat, m': nat, n': nat)
    requires mid != [] && mid[0] == ' ' && suffix != [] && suffix[0] == ' '
    requires p + NatToString(m) + mid + NatToString(n) + suffix == p + NatToString(m') + mid + NatToString(n') + suffix
    ensures m == m' && n == n'
  {
    var x, x' := mid + NatToString(n) + suffix, mid + NatToString(n') + suffix;
    Regroup(p, NatToString(m), mid, NatToString(n), suffix);
    Regroup(p, NatToString(m'), mid, NatToString(n'), suffix);
    NumeralThenSpace(p, m, x, m', x');
    NumeralThenSpace(mid, n, suffix, n', suffix);
  }

  lemma Regroup(p: string, a: string, mid: string, b: string, suffix: string)
    ensures p + a + mid + b + suffix == p + a + (mid + b + suffix)
  {
  }

  /** After a common prefix, a printed number followed by a space is read back unambiguously. */
  lemma NumeralThenSpace(p: string, m: nat, x: string, m': nat, x': string)
    requires x != [] && x[0] == ' ' && x' != [] && x'[0] == ' '
    requires p + NatToString(m) + x == p + NatToString(m') + x'
    ensures m == m' && x == x'
  {
    var a, a' := NatToString(m), NatToString(m');
    assert (p + a + x)[|p|..] == a + x;
    assert (p + a' + x')[|p|..] == a' + x';
    DigitsThenSpace(a, x, a', x');
    NatToStringInjective(m, m');
  }

  /** A run of digits followed by a space is determined by the whole string. */
  lemma DigitsThenSpace(a: string, x: string, b: string, y: string)
    requires forall i :: 0 <= i < |a| ==> IsDigit(a[i])
    requires forall i :: 0 <= i < |b| ==> IsDigit(b[i])
    requires x != [] && x[0] == ' ' && y != [] && y[0] == ' '
    requires a + x == b + y
    ensures a == b && x == y
  {
    var w := a + x;
    assert forall i :: 0 <= i < |a| ==> IsDigit(w[i]);
    assert forall i :: 0 <= i < |b| ==> IsDigit(w[i]);
    assert !IsDigit(w[|a|]) && !IsDigit(w[|b|]);
    assert |a| == |b|;
    assert a == (a + x)[..|a|] && b == (b + y)[..|b|];
    assert x == (a + x)[|a|..] && y == (b + y)[|b|..];
  }

  /** The invitations keep the order of `users`: those for a first part of the list all come
      before those for the rest. */
  lemma {:induction false} RequestsInOrder(a: seq<User>, b: seq<User>, redirect: string)
    ensures Requests(a + b, redirect) == Requests(a, redirect) + Requests(b, redirect)
    decreases |b|
  {
    if b != [] {
      var init := b[..|b| - 1];
      assert (a + b)[..|a + b| - 1] == a + init;
      assert (a + b)[|a + b| - 1] == b[|b| - 1];
      RequestsInOrder(a, init, redirect);
    } else {
      assert a + b == a;
    }
  }

  /** The handler (lines 57-160): the response and the invitations it asked for.

      The 400 thrown for a non-array `users` is caught by the handler's own `catch` and
      answered with 500, like every other failure. A `null` user makes its task throw inside
      its own `catch`, which rejects `Promise.all` and so the whole request; the invitations for
      the other users are requested all the same. */
  function Handle(body: Body, configuredSiteUrl: string, origin: string, host: string,
                  outcomes: nat -> InviteOutcome): (r: (Response, seq<InviteRequest>))
    ensures r.0.Failure? ==> r.0 == Failure(500, FailureMessage)
    ensures body.NoBody? || body.users.NotArray? ==> r.0.Failure? && r.1 == []
    ensures body.Body? && body.users.UsersArray? ==>
              var users := body.users.users;
              var redirect := RedirectUrl(SiteUrl(configuredSiteUrl, origin, host));
              && r.1 == Requests(users, redirect)
              && (r.0.Failure? <==> exists i :: 0 <= i < |users| && users[i].NullUser?)
              && (r.0.Ok? ==>
                    && |r.0.results| == |users|
                    && (forall i :: 0 <= i < |users| ==>
                          Returned(r.0.results[i]) == InviteTask(users[i], redirect, outcomes(i)))
                    && r.0.success == (SuccessCount(r.0.results) > 0)
                    && r.0.message == Summary(SuccessCount(r.0.results), |users|))
  {
    match body
    case NoBody => (Failure(500, FailureMessage), [])
    case Body(NotArray) => (Failure(500, FailureMessage), [])
    case Body(UsersArray(users)) =>
      var redirect := RedirectUrl(SiteUrl(configuredSiteUrl, origin, host));
      var tasks := seq(|users|, i requires 0 <= i < |users| => InviteTask(users[i], redirect, outcomes(i)));
      var requests := Requests(users, redirect);
      assert forall i :: 0 <= i < |users| ==> tasks[i] == InviteTask(users[i], redirect, outcomes(i));
      assert forall i :: 0 <= i < |users| ==> (tasks[i].Threw? <==> users[i].NullUser?);
      if exists i :: 0 <= i < |tasks| && tasks[i].Threw? then
        (Failure(500, FailureMessage), requests)
      else
        var results := seq(|tasks|, i requires 0 <= i < |tasks| => tasks[i].result);
        var n := SuccessCount(results);
        (Ok(n > 0, results, Summary(n, |users|)), requests)
  }

  /** Each requested invitation comes from a user with a valid email, and each such user gets
      one. */
  lemma {:induction false} RequestsFrom(users: seq<User>, redirect: string)
    ensures forall q :: q in Requests(users, redirect) ==>
              exists i :: 0 <= i < |users| && RequestFor(users[i], redirect) == [q]
    ensures forall i :: 0 <= i < |users| && users[i].Entry? && ValidEmail(users[i].email) ==>
              InviteRequest(users[i].email.text, redirect) in Requests(users, redirect)
    decreases |users|
  {
    if users != [] {
      var init := users[..|users| - 1];
      RequestsFrom(init, redirect);
      forall q | q in Requests(users, redirect)
        ensures exists i :: 0 <= i < |users| && RequestFor(users[i], redirect) == [q]
      {
        if q in Requests(init, redirect) {
          var i :| 0 <= i < |init| && RequestFor(init[i], redirect) == [q];
          assert users[i] == init[i];
        } else {
          assert RequestFor(users[|users| - 1], redirect) == [q];
        }
      }
      forall i | 0 <= i < |users| && users[i].Entry? && ValidEmail(users[i].email)
        ensures InviteRequest(users[i].email.text, redirect) in Requests(users, redirect)
      {
        if i < |init| {
          assert users[i] == init[i];
        }
      }
    }
  }
}
