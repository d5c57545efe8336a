/**
 * The newsletter views as a registry of subscriptions keyed by email:
 * subscribe, verify by token, unsubscribe.
 */
module NewsletterViews {
  import opened Common

  datatype Status = Active | Inactive | Pending

  /** A subscription row; its email is the registry key. */
  datatype Subscription = Subscription(status: Status, isVerified: bool, token: Option<string>)

  datatype Message = SubscriptionSuccessful | AlreadyVerified | VerifiedSuccessfully | Unsubscribed
  datatype Problem = EmailRequired | AlreadySubscribed

  /** The HTTP answers of the three views. */
  datatype Response =
    | Created201(message: Message)
    | Ok200(message: Message)
    | BadRequest400(problem: Problem)
    | NotFound404
    | ServerError500

  /** The emails whose subscription currently holds `token`. */
  function TokenHolders(subscriptions: map<string, Subscription>, token: string): set<string>
  {
    set e | e in subscriptions && subscriptions[e].token == Some(token)
  }

  /** The one subscription `objects.get(verification_token=token)` finds, if exactly one matches. */
  ghost function SoleHolder(subscriptions: map<string, Subscription>, token: string): (h: Option<string>)
    ensures h.Some? <==> |TokenHolders(subscriptions, token)| == 1
    ensures h.Some? ==> TokenHolders(subscriptions, token) == {h.value}
  {
    var holders := TokenHolders(subscriptions, token);
    if |holders| == 1 then
      var e :| e in holders;
      assert holders == {e} by {
        assert |holders - {e}| == 0;
      }
      Some(e)
    else None
  }

  /**
   * What the views keep true of every row: a verified subscription has no
   * token left, and only a verified one is active.
   */
  predicate Consistent(s: Subscription)
  {
    (s.isVerified ==> s.token.None?) && (s.status == Active ==> s.isVerified)
  }

  /** What `subscribe` does when the verification mail fails to send. */
  datatype MailFailureHandling =
    | KeepRow    // the exception escapes the view: a 500, with the row and its token left stored
    | RemoveRow  // the row is removed again before the 500, so the address may subscribe anew

  /** The rows after a `subscribe` request and its answer. */
  datatype SubscribeResult = SubscribeResult(rows: map<string, Subscription>, response: Response)

  /**
   * `subscribe` on the rows `subscriptions`: `token` is the one the
   * verification mail draws and stores on the new row before sending, and
   * `mailSent` says whether the send succeeded.
   */
  function SubscribeOutcome(subscriptions: map<string, Subscription>, email: string, token: string,
                            mailSent: bool, handling: MailFailureHandling): (r: SubscribeResult)
    ensures email == [] ==> r == SubscribeResult(subscriptions, BadRequest400(EmailRequired))
    ensures email != [] && email in subscriptions ==>
      r == SubscribeResult(subscriptions, BadRequest400(AlreadySubscribed))
    ensures email != [] && email !in subscriptions && mailSent ==>
      r == SubscribeResult(subscriptions[email := Subscription(Pending, false, Some(token))],
                           Created201(SubscriptionSuccessful))
    ensures email != [] && email !in subscriptions && !mailSent ==> r.response == ServerError500
    ensures email != [] && email !in subscriptions && !mailSent && handling == KeepRow ==>
      r.rows == subscriptions[email := Subscription(Pending, false, Some(token))]
    ensures handling == RemoveRow && !mailSent ==> r.rows == subscriptions
    // no request touches another address's row
    ensures forall e :: e != email ==> (e in r.rows <==> e in subscriptions)
    ensures forall e :: e != email && e in r.rows ==> r.rows[e] == subscriptions[e]
  {
    if email == [] then SubscribeResult(subscriptions, BadRequest400(EmailRequired))
    else if email in subscriptions then SubscribeResult(subscriptions, BadRequest400(AlreadySubscribed))
    else
      var stored := subscriptions[email := Subscription(Pending, false, Some(token))];
      if mailSent then SubscribeResult(stored, Created201(SubscriptionSuccessful))
      else if handling == KeepRow then SubscribeResult(stored, ServerError500)
      else SubscribeResult(subscriptions, ServerError500)
  }

  /**
   * As written, a failed verification mail locks the address out: the 500
   * leaves a pending row whose token was never delivered, and every later
   * `subscribe` for the address is refused as already subscribed, so no new
   * token is ever drawn for it.
   */
  lemma FailedMailLocksOutAddress(subscriptions: map<string, Subscription>, email: string,
                                  token: string, retryToken: string, retrySent: bool)
    requires email != [] && email !in subscriptions
    ensures var first := SubscribeOutcome(subscriptions, email, token, false, KeepRow);
      first.response == ServerError500 &&
      email in first.rows && first.rows[email] == Subscription(Pending, false, Some(token)) &&
      SubscribeOutcome(first.rows, email, retryToken, retrySent, KeepRow) ==
        SubscribeResult(first.rows, BadRequest400(AlreadySubscribed))
  {
  }

  /**
   * Removing the row on a failed mail leaves the rows as they were, so a
   * retry whose mail goes out subscribes the address with the new token.
   */
  lemma RemoveRowRetrySubscribes(subscriptions: map<string, Subscription>, email: string,
                                 token: string, retryToken: string)
    requires email != [] && email !in subscriptions
    ensures var first := SubscribeOutcome(subscriptions, email, token, false, RemoveRow);
      first == SubscribeResult(subscriptions, ServerError500) &&
      SubscribeOutcome(first.rows, email, retryToken, true, RemoveRow) ==
        SubscribeResult(subscriptions[email := Subscription(Pending, false, Some(retryToken))],
                        Created201(SubscriptionSuccessful))
  {
  }

  class Registry {
    var subscriptions: map<string, Subscription>

    ghost predicate Valid()
      reads this
    {
      "" !in subscriptions && forall e :: e in subscriptions ==> Consistent(subscriptions[e])
    }

    constructor ()
      ensures Valid() && subscriptions == map[]
    {
      subscriptions := map[];
    }

    /**
     * `subscribe`. `email` is "" when the request has none. The verification
     * mail draws `token` and stores it on the new row before it is sent;
     * `mailSent` says whether sending succeeded. As written (`KeepRow`) a
     * failed send re-raises through the view.
     */
    method Subscribe(email: string, token: string, mailSent: bool, handling: MailFailureHandling)
      returns (resp: Response)
      modifies this
      ensures old(Valid()) ==> Valid()
      ensures SubscribeResult(subscriptions, resp) == SubscribeOutcome(old(subscriptions), email, token, mailSent, handling)
    {
      if email == [] {
        return BadRequest400(EmailRequired);
      }
      if email in subscriptions {
        return BadRequest400(AlreadySubscribed);
      }
      subscriptions := subscriptions[email := Subscription(Pending, false, None)];
      // the verification mail stores its freshly drawn token on the row, then sends
      subscriptions := subscriptions[email := subscriptions[email].(token := Some(token))];
      if !mailSent {
        if handling == RemoveRow {
          subscriptions := subscriptions - {email};
          assert subscriptions == old(subscriptions);
        }
        return ServerError500;
      }
      resp := Created201(SubscriptionSuccessful);
    }

    /**
     * `verify_subscription`: no row holding the token is a 404, more than one
     * makes the lookup raise (a 500); the one row found is activated and its
     * token cleared, unless it is already verified.
     */
    method Verify(token: string) returns (resp: Response)
      modifies this
      ensures old(Valid()) ==> Valid()
      ensures |TokenHolders(old(subscriptions), token)| == 0 ==>
        resp == NotFound404 && subscriptions == old(subscriptions)
      ensures |TokenHolders(old(subscriptions), token)| > 1 ==>
        resp == ServerError500 && subscriptions == old(subscriptions)
      ensures var h := SoleHolder(old(subscriptions), token);
        h.Some? && old(subscriptions)[h.value].isVerified ==>
          resp == Ok200(AlreadyVerified) && subscriptions == old(subscriptions)
      ensures var h := SoleHolder(old(subscriptions), token);
        h.Some? && !old(subscriptions)[h.value].isVerified ==>
          resp == Ok200(VerifiedSuccessfully) &&
          subscriptions == old(subscriptions)[h.value := Subscription(Active, true, None)]
      // a token works once: after a successful verification nobody holds it
      ensures resp == Ok200(VerifiedSuccessfully) ==> TokenHolders(subscriptions, token) == {}
      // on a registry the views built, a token never leads to a verified row
      ensures old(Valid()) ==> resp != Ok200(AlreadyVerified)
    {
      var holders := set e | e in subscriptions && subscriptions[e].token == Some(token);
      if |holders| == 0 {
        return NotFound404;
      }
      if |holders| > 1 {
        return ServerError500;
      }
      var email :| email in holders;
      ghost var h := SoleHolder(subscriptions, token);
      assert h == Some(email);
      if subscriptions[email].isVerified {
        return Ok200(AlreadyVerified);
      }
      subscriptions := subscriptions[email := Subscription(Active, true, None)];
      resp := Ok200(VerifiedSuccessfully);
      assert TokenHolders(subscriptions, token) == {} by {
        forall e | e in subscriptions ensures subscriptions[e].token != Some(token) {
          if e != email { assert e !in old(TokenHolders(subscriptions, token)); }
        }
      }
    }

    /** `unsubscribe`: the row for the email becomes inactive; nothing else about it changes. */
    method Unsubscribe(email: string) returns (resp: Response)
      modifies this
      ensures old(Valid()) ==> Valid()
      ensures email == [] ==> resp == BadRequest400(EmailRequired) && subscriptions == old(subscriptions)
      ensures email != [] && email !in old(subscriptions) ==> resp == NotFound404 && subscriptions == old(subscriptions)
      ensures email != [] && email in old(subscriptions) ==>
        resp == Ok200(Unsubscribed) &&
        subscriptions == old(subscriptions)[email := old(subscriptions)[email].(status := Inactive)]
    {
      if email == [] {
        return BadRequest400(EmailRequired);
      }
      if email !in subscriptions {
        return NotFound404;
      }
      subscriptions := subscriptions[email := subscriptions[email].(status := Inactive)];
      resp := Ok200(Unsubscribed);
    }
  }
}
