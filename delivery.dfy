/** What the three fan-outs (routes/subscribers.py, routes/playwright_posts.py and
    routes/posts.py) share: the services they call, the per-recipient footer, artifact and
    outcome, the staggering delay and their replies. */
module Delivery {
  import opened Wrappers
  import opened Errors
  import opened Text
  import opened Docs
  import opened Raster
  import opened ImageService
  import opened Jobs

  /** The services a distribution calls and the model does not look into. */
  datatype Services = Services(
    // `generate_structured_output(holiday, description)`, the description None when not passed
    structured: (Value, Value) -> Result<Fields, Error>,
    // `generate_image(prompt)` and `generate_image_playwright(prompt)`
    generateImage: Value -> Result<View, Error>,
    generateImagePlaywright: Value -> Result<View, Error>,
    // `base64.b64decode(value)`
    decode64: Value -> Result<seq<byte>, Error>,
    // `overlay_subscriber_image(base_image, overlay_bytes)`
    overlaySubscriber: (View, seq<byte>) -> Result<View, Error>,
    // `send_to_whatsapp(image_b64, caption, phone)`, answering with the parsed response
    send: (string, Value, Value) -> Result<Value, Error>,
    assets: Assets)

  /** `structured_output.get("prompt", "")` and `.get("caption", "")`. */
  function Prompt(output: Fields): Value
  {
    Get(output, "prompt", VStr(""))
  }

  function Caption(output: Fields): Value
  {
    Get(output, "caption", VStr(""))
  }

  /** The base picture a distribution starts from: the structured output for the holiday,
      a 500 when its prompt is empty, otherwise the generator's picture of the prompt, with
      the caption to send alongside. */
  function BaseImage(holiday: Value, description: Value, generate: Value -> Result<View, Error>, s: Services)
    : (r: Result<(View, Value), Error>)
    ensures s.structured(holiday, description).Failure? ==> r == Failure(s.structured(holiday, description).error)
    ensures s.structured(holiday, description).Success? ==>
              var output := s.structured(holiday, description).value;
              && (!Truthy(Prompt(output)) ==> r == Failure(Http(500, "Failed to generate image prompt")))
              && (Truthy(Prompt(output)) ==> r == (if generate(Prompt(output)).Success?
                                                   then Success((generate(Prompt(output)).value, Caption(output)))
                                                   else Failure(generate(Prompt(output)).error)))
  {
    var output :- s.structured(holiday, description);
    if !Truthy(Prompt(output)) then Failure(Http(500, "Failed to generate image prompt"))
    else
      var picture :- generate(Prompt(output));
      Success((picture, Caption(output)))
  }

  /** An empty prompt ends the run before the generator is asked for anything. */
  lemma EmptyPromptGeneratesNothing(holiday: Value, description: Value, generate: Value -> Result<View, Error>,
                                    other: Value -> Result<View, Error>, s: Services)
    requires s.structured(holiday, description).Success? && !Truthy(Prompt(s.structured(holiday, description).value))
    ensures BaseImage(holiday, description, generate, s) == BaseImage(holiday, description, other, s)
  {
  }

  const Separator := "   |   "

  /** A distribution's footer: the recipient's phone, mail and website as stored, missing
      ones as "", the last two upper-cased; a stored mail or website that is neither text
      nor bytes has no `upper`. */
  function RecipientFooter(user: Fields): (r: Result<string, Error>)
    ensures r.Success? <==> (Get(user, "mail", VStr("")).VStr? || Get(user, "mail", VStr("")).VBytes?)
                            && (Get(user, "website", VStr("")).VStr? || Get(user, "website", VStr("")).VBytes?)
    ensures r.Failure? ==> r.error.Exception? && r.error.kind == "AttributeError"
  {
    var mail :- UpperValue(Get(user, "mail", VStr("")));
    var website :- UpperValue(Get(user, "website", VStr("")));
    Success(PyStr(Get(user, "phone", VStr(""))) + Separator + PyStr(mail) + Separator + PyStr(website))
  }

  /** The single-post footer of `generate_post` and its Playwright variant. */
  function PostFooter(phone: string, mail: string, website: string): (f: string)
    ensures |f| == 4 + |phone| + |mail| + |website| + 2 * |Separator| && f[..4] == "+91 "
  {
    "+91 " + phone + Separator + Upper(mail) + Separator + Upper(website)
  }

  /** For a recipient whose fields are all text, the distribution footer is the single-post
      footer of the same fields without its "+91 " prefix; missing fields read as "". */
  lemma RecipientFooterIsPostFooter(user: Fields, phone: string, mail: string, website: string)
    requires Get(user, "phone", VStr("")) == VStr(phone)
    requires Get(user, "mail", VStr("")) == VStr(mail)
    requires Get(user, "website", VStr("")) == VStr(website)
    ensures RecipientFooter(user) == Success(PostFooter(phone, mail, website)[4..])
  {
    var rest := phone + Separator + Upper(mail) + Separator + Upper(website);
    assert UpperValue(VStr(mail)) == Success(VStr(Upper(mail)));
    assert UpperValue(VStr(website)) == Success(VStr(Upper(website)));
    assert RecipientFooter(user) == Success(rest);
    assert PostFooter(phone, mail, website) == "+91 " + rest;
    assert |"+91 "| == 4;
    assert ("+91 " + rest)[4..] == rest;
  }

  /** A subscriber's artifact: its stored overlay decoded, laid over the base picture, and
      encoded for sending. */
  function SubscriberArtifact(base: View, subscriber: Fields, s: Services): Result<string, Error>
  {
    var overlay :- s.decode64(Get(subscriber, "overlay", VStr("")));
    var custom :- s.overlaySubscriber(base, overlay);
    Payload(custom, s.assets.png)
  }

  /** A user's artifact: the base picture with the user's logo and footer, encoded. */
  function UserArtifact(base: View, user: Fields, s: Services): Result<string, Error>
  {
    var footer :- RecipientFooter(user);
    var custom :- Overlay(base, Get(user, "logo", VNone), footer, s.assets);
    Payload(custom, s.assets.png)
  }

  /** One recipient's outcome: an artifact that could not be built, or a send that raised,
      is recorded with the exception's text; otherwise the notifier's answer is recorded. */
  function Attempt(recipient: string, phone: Value, artifact: Result<string, Error>, caption: Value, s: Services)
    : (o: Outcome)
    ensures o.recipient == recipient && o.phone == phone
    ensures o.Delivered? <==> artifact.Success? && s.send(artifact.value, caption, phone).Success?
    ensures artifact.Failure? ==> o == Undelivered(recipient, phone, Message(artifact.error))
    ensures o.Delivered? ==> o.response == s.send(artifact.value, caption, phone).value
  {
    if artifact.Failure? then Undelivered(recipient, phone, Message(artifact.error))
    else
      var sent := s.send(artifact.value, caption, phone);
      if sent.Failure? then Undelivered(recipient, phone, Message(sent.error))
      else Delivered(recipient, phone, sent.value)
  }

  /** `str(recipient["_id"])` and `recipient.get("phone")`. */
  function RecipientId(recipient: Fields): string
    requires "_id" in recipient
  {
    PyStr(recipient["_id"])
  }

  function Phone(recipient: Fields): Value
  {
    Get(recipient, "phone", VNone)
  }

  function SubscriberOutcome(base: View, subscriber: Fields, caption: Value, s: Services): Outcome
    requires "_id" in subscriber
  {
    Attempt(RecipientId(subscriber), Phone(subscriber), SubscriberArtifact(base, subscriber, s), caption, s)
  }

  function UserOutcome(base: View, user: Fields, caption: Value, s: Services): Outcome
    requires "_id" in user
  {
    Attempt(RecipientId(user), Phone(user), UserArtifact(base, user, s), caption, s)
  }

  /** The outcomes of a run over `subscribers` on the base picture, in order. */
  function SubscriberOutcomes(base: View, subscribers: seq<Fields>, caption: Value, s: Services): (r: seq<Outcome>)
    requires forall i | 0 <= i < |subscribers| :: "_id" in subscribers[i]
    ensures |r| == |subscribers|
  {
    if subscribers == [] then []
    else
      var last := |subscribers| - 1;
      SubscriberOutcomes(base, subscribers[..last], caption, s) + [SubscriberOutcome(base, subscribers[last], caption, s)]
  }

  /** The `i`-th outcome of a run is the `i`-th subscriber's own. */
  lemma {:induction false} SubscriberOutcomesAt(base: View, subscribers: seq<Fields>, caption: Value, s: Services, i: nat)
    requires forall k | 0 <= k < |subscribers| :: "_id" in subscribers[k]
    requires i < |subscribers|
    ensures SubscriberOutcomes(base, subscribers, caption, s)[i] == SubscriberOutcome(base, subscribers[i], caption, s)
  {
    var last := |subscribers| - 1;
    if i < last {
      assert subscribers[..last][i] == subscribers[i];
      SubscriberOutcomesAt(base, subscribers[..last], caption, s, i);
    } else {
      assert subscribers[..last] + [subscribers[last]] == subscribers;
    }
  }

  /** The outcomes of a run over `users` on the base picture, in order. */
  function UserOutcomes(base: View, users: seq<Fields>, caption: Value, s: Services): (r: seq<Outcome>)
    requires forall i | 0 <= i < |users| :: "_id" in users[i]
    ensures |r| == |users|
  {
    if users == [] then []
    else
      var last := |users| - 1;
      UserOutcomes(base, users[..last], caption, s) + [UserOutcome(base, users[last], caption, s)]
  }

  /** The `i`-th outcome of a run is the `i`-th user's own. */
  lemma {:induction false} UserOutcomesAt(base: View, users: seq<Fields>, caption: Value, s: Services, i: nat)
    requires forall k | 0 <= k < |users| :: "_id" in users[k]
    requires i < |users|
    ensures UserOutcomes(base, users, caption, s)[i] == UserOutcome(base, users[i], caption, s)
  {
    var last := |users| - 1;
    if i < last {
      assert users[..last][i] == users[i];
      UserOutcomesAt(base, users[..last], caption, s, i);
    } else {
      assert users[..last] + [users[last]] == users;
    }
  }

  /** The subscribers' artifacts, in order. */
  function SubscriberArtifacts(base: View, subscribers: seq<Fields>, s: Services): (r: seq<Result<string, Error>>)
    ensures |r| == |subscribers|
  {
    if subscribers == [] then []
    else
      var last := |subscribers| - 1;
      SubscriberArtifacts(base, subscribers[..last], s) + [SubscriberArtifact(base, subscribers[last], s)]
  }

  lemma {:induction false} SubscriberArtifactsAt(base: View, subscribers: seq<Fields>, s: Services, i: nat)
    requires i < |subscribers|
    ensures SubscriberArtifacts(base, subscribers, s)[i] == SubscriberArtifact(base, subscribers[i], s)
  {
    var last := |subscribers| - 1;
    if i < last {
      assert subscribers[..last][i] == subscribers[i];
      SubscriberArtifactsAt(base, subscribers[..last], s, i);
    } else {
      assert subscribers[..last] + [subscribers[last]] == subscribers;
    }
  }

  /** The users' artifacts, in order. */
  function UserArtifacts(base: View, users: seq<Fields>, s: Services): (r: seq<Result<string, Error>>)
    ensures |r| == |users|
  {
    if users == [] then []
    else
      var last := |users| - 1;
      UserArtifacts(base, users[..last], s) + [UserArtifact(base, users[last], s)]
  }

  lemma {:induction false} UserArtifactsAt(base: View, users: seq<Fields>, s: Services, i: nat)
    requires i < |users|
    ensures UserArtifacts(base, users, s)[i] == UserArtifact(base, users[i], s)
  {
    var last := |users| - 1;
    if i < last {
      assert users[..last][i] == users[i];
      UserArtifactsAt(base, users[..last], s, i);
    } else {
      assert users[..last] + [users[last]] == users;
    }
  }

  /** `random.randint(30, 300)`, both ends included. */
  const MinDelay := 30
  const MaxDelay := 300

  method ChooseDelay() returns (seconds: int)
    ensures MinDelay <= seconds <= MaxDelay
  {
    seconds :| MinDelay <= seconds <= MaxDelay;
  }

  /** What one recipient's turn did at its suspension points: nothing, when its artifact
      could not be built; otherwise the wait before the send (none for the first
      recipient) and, in a background job, the counters pollers could see while it waited
      and sent. The synchronous route has no job and no pollers: `seen` is None there. */
  datatype Turn = Skipped | Sent(delay: Option<int>, seen: Option<Progress>)

  /** Counters a poller may see during the turn of recipient `index`: when there are any,
      they balance and count the recipients before this one. */
  predicate Watched(seen: Option<Progress>, index: nat)
  {
    seen.Some? ==> Balanced(seen.value) && seen.value.processed == index
  }

  /** The staggering rule for the turn of recipient `index`, whose artifact was (or was
      not) built: a wait in [30, 300] before every send but the first, no send and no wait
      without an artifact; in a background job (`polled`), balanced counters at each
      suspension, and no counters at all outside one. */
  predicate Paced(turn: Turn, index: nat, built: bool, polled: bool)
  {
    && (turn.Sent? <==> built)
    && (turn.Sent? ==> && (turn.delay.Some? <==> index > 0)
                       && (turn.delay.Some? ==> MinDelay <= turn.delay.value <= MaxDelay)
                       && (turn.seen.Some? <==> polled) && Watched(turn.seen, index))
  }

  /** The subscriber loop's first steps: decode the stored overlay, composite it onto the
      base picture, encode the result. */
  method BuildSubscriberArtifact(base: View, subscriber: Fields, s: Services) returns (artifact: Result<string, Error>)
    ensures artifact == SubscriberArtifact(base, subscriber, s)
  {
    var overlay := s.decode64(Get(subscriber, "overlay", VStr("")));
    if overlay.Failure? {
      return Failure(overlay.error);
    }
    var custom := s.overlaySubscriber(base, overlay.value);
    if custom.Failure? {
      return Failure(custom.error);
    }
    var image := new Image(custom.value);
    artifact := ImageToBase64(image, s.assets.png);
  }

  /** The user loop's first steps: build the footer, overlay logo and footer on the shared
      base picture, encode the result. The base picture is left as it was. */
  method BuildUserArtifact(base: Image, user: Fields, s: Services) returns (artifact: Result<string, Error>)
    ensures base.Snapshot() == old(base.Snapshot())
    ensures artifact == UserArtifact(old(base.Snapshot()), user, s)
  {
    var footer := RecipientFooter(user);
    if footer.Failure? {
      return Failure(footer.error);
    }
    var custom := OverlayImages(base, Get(user, "logo", VNone), footer.value, s.assets);
    if custom.Failure? {
      return Failure(custom.error);
    }
    artifact := ImageToBase64(custom.value, s.assets.png);
  }

  /** The rest of a recipient's turn: with an artifact, wait (except for the first
      recipient) and send; any failure becomes an `Undelivered` outcome. `seen` is what
      pollers of a background job see meanwhile (nothing is recorded until the turn is
      over), or None without a job. */
  method Deliver(index: nat, recipient: string, phone: Value, artifact: Result<string, Error>, caption: Value,
                 s: Services, seen: Option<Progress>)
    returns (outcome: Outcome, turn: Turn)
    requires Watched(seen, index)
    ensures outcome == Attempt(recipient, phone, artifact, caption, s)
    ensures Paced(turn, index, artifact.Success?, seen.Some?)
  {
    if artifact.Failure? {
      return Undelivered(recipient, phone, Message(artifact.error)), Skipped;
    }
    var delay: Option<int> := None;
    if index > 0 {
      var seconds := ChooseDelay();
      delay := Some(seconds);
    }
    turn := Sent(delay, seen);
    var sent := s.send(artifact.value, caption, phone);
    if sent.Failure? {
      outcome := Undelivered(recipient, phone, Message(sent.error));
    } else {
      outcome := Delivered(recipient, phone, sent.value);
    }
  }

  /** The whole turn of subscriber `index`: the run's outcomes so far gain this
      subscriber's, and the turn keeps the pause rule. */
  method SubscriberTurn(index: nat, subscribers: seq<Fields>, base: View, caption: Value, s: Services, seen: Progress)
    returns (outcome: Outcome, turn: Turn)
    requires index < |subscribers| && forall i | 0 <= i < |subscribers| :: "_id" in subscribers[i]
    requires Balanced(seen) && seen.processed == index
    ensures outcome == SubscriberOutcomes(base, subscribers, caption, s)[index]
    ensures Paced(turn, index, SubscriberArtifacts(base, subscribers, s)[index].Success?, true)
  {
    var subscriber := subscribers[index];
    var artifact := BuildSubscriberArtifact(base, subscriber, s);
    outcome, turn := Deliver(index, RecipientId(subscriber), Phone(subscriber), artifact, caption, s, Some(seen));
    SubscriberArtifactsAt(base, subscribers, s, index);
    SubscriberOutcomesAt(base, subscribers, caption, s, index);
  }

  /** The whole turn of user `index` on the shared base picture, which it leaves as it
      was: the run's outcomes so far gain this user's, and the turn keeps the pause rule.
      `seen` is the job's counters in the background route and None in the synchronous
      one. */
  method UserTurn(index: nat, users: seq<Fields>, base: Image, ghost picture: View, caption: Value, s: Services,
                  seen: Option<Progress>)
    returns (outcome: Outcome, turn: Turn)
    requires index < |users| && forall i | 0 <= i < |users| :: "_id" in users[i]
    requires base.Snapshot() == picture && Watched(seen, index)
    ensures outcome == UserOutcomes(picture, users, caption, s)[index]
    ensures Paced(turn, index, UserArtifacts(picture, users, s)[index].Success?, seen.Some?)
  {
    var user := users[index];
    var artifact := BuildUserArtifact(base, user, s);
    outcome, turn := Deliver(index, RecipientId(user), Phone(user), artifact, caption, s, seen);
    UserArtifactsAt(picture, users, s, index);
    UserOutcomesAt(picture, users, caption, s, index);
  }

  /** The answers of the distribution endpoints: the error dict, the started job, or (for
      the synchronous fan-out) the completed run. */
  datatype Reply =
    | Refused(message: string)
    | Started(jobId: string, holiday: Value, total: nat, message: string)
    | Finished(holiday: Value, total: nat, results: seq<Outcome>)
}
