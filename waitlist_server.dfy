/**
 * The waitlist backend: the POST /waitlist signup handler, the GET /waitlist
 * listing and the health check of the server function.
 *
 * The key-value store and the mail service are external collaborators. Each
 * is a small class whose state the handlers change, and whether a call into
 * it fails is a parameter (an `Outcome`), since the model cannot see inside.
 * The clock is a parameter too: `now` is the string `new Date().toISOString()`
 * would give.
 */
module WaitlistServer {
  import opened Wrappers

  /** The value stored under a waitlist key. */
  datatype Signup = Signup(email: string, timestamp: string, notified: bool)

  /** What destructuring `const { email } = body` yields. */
  datatype EmailField =
    | Missing               // no `email` property; also any non-null body that is not an object
    | Text(s: string)       // a JSON string
    | NonText(truthy: bool) // null, a boolean, a number or an object: none has an `includes` method

  /** The request body as `c.req.json()` delivers it. */
  datatype Body =
    | Unparsable            // the body is not JSON: `c.req.json()` rejects
    | NullBody              // the JSON literal `null`: destructuring it throws
    | Parsed(email: EmailField)

  /** Whether a call into a collaborator completes or throws. */
  datatype Outcome = Succeeds | Fails

  datatype Payload =
    | Error(error: string)
    | Joined(success: bool, message: string)
    | Signups(signups: map<string, Signup>)
    | Status(status: string)

  datatype Reply = Reply(status: nat, payload: Payload)

  /** A notification the mail service accepted for delivery. */
  datatype Notice = Notice(from: string, to: string, email: string, timestamp: string)

  const Prefix := "waitlist:"
  const InvalidEmail := Reply(400, Error("Valid email is required"))
  const SignupFailed := Reply(500, Error("Failed to process signup"))
  const JoinedWaitlist := Reply(200, Joined(true, "Successfully joined waitlist"))
  const FetchFailed := Reply(500, Error("Failed to fetch signups"))
  const HealthOk := Reply(200, Status("ok"))

  /** Width of `toISOString()` output for years 0000 to 9999: `YYYY-MM-DDTHH:mm:ss.sssZ`. */
  const IsoWidth := 24

  /** What the email check `!email || !email.includes('@')` decides. */
  datatype Verdict =
    | Accepted(email: string)
    | Rejected              // the check is true: 400
    | Throws                // `email.includes` is not a function: 500

  function CheckEmail(field: EmailField): (v: Verdict)
    ensures v.Accepted? <==> field.Text? && '@' in field.s
    ensures v.Accepted? ==> v.email == field.s
    ensures v.Throws? <==> field == NonText(true)
  {
    match field
    case Missing => Rejected
    case NonText(truthy) => if truthy then Throws else Rejected
    case Text(s) => if s == "" || '@' !in s then Rejected else Accepted(s)
  }

  /** The store key of a signup. */
  function WaitlistKey(timestamp: string, email: string): (k: string)
    ensures Prefix <= k
    ensures |k| == |Prefix| + |timestamp| + 1 + |email|
  {
    Prefix + timestamp + ":" + email
  }

  /**
   * Splits a key written with an ISO-width timestamp back into its
   * timestamp and email. Not in the server itself: it is the inverse that
   * shows the key loses nothing.
   */
  function ParseKey(k: string): Option<(string, string)>
  {
    var split := |Prefix| + IsoWidth;
    if Prefix <= k && split < |k| && k[split] == ':' then
      Some((k[|Prefix|..split], k[split + 1..]))
    else
      None
  }

  /** The entries whose key starts with `prefix`: `kv.getByPrefix`. */
  function ByPrefix(entries: map<string, Signup>, prefix: string): (sub: map<string, Signup>)
    ensures forall k :: k in sub <==> k in entries && prefix <= k
    ensures forall k :: k in sub ==> sub[k] == entries[k]
  {
    map k | k in entries && prefix <= k :: entries[k]
  }

  function AdminNotice(email: string, timestamp: string): Notice
  {
    Notice("onboarding@resend.dev", "admin@opposia.com", email, timestamp)
  }

  /** The state after one request: the reply, the store and the mail sent. */
  datatype Effect = Effect(reply: Reply, entries: map<string, Signup>, outbox: seq<Notice>)

  /**
   * The POST /waitlist handler as a function of the store, the mail already
   * sent, the request body, the clock and the two collaborators' outcomes.
   */
  function Post(entries: map<string, Signup>, outbox: seq<Notice>, body: Body, now: string,
                store: Outcome, mail: Outcome): (e: Effect)
    ensures e.reply == JoinedWaitlist || e.reply == InvalidEmail || e.reply == SignupFailed
    ensures e.reply == InvalidEmail <==>
              body.Parsed? && (body.email.Missing? || body.email == NonText(false) ||
                               (body.email.Text? && '@' !in body.email.s))
    ensures e.reply == JoinedWaitlist <==>
              body.Parsed? && body.email.Text? && '@' in body.email.s && store == Succeeds
    ensures e.reply == JoinedWaitlist ==>
              body.Parsed? && body.email.Text? &&
              e.entries == entries[WaitlistKey(now, body.email.s) := Signup(body.email.s, now, false)] &&
              e.outbox == outbox + (if mail == Succeeds then [AdminNotice(body.email.s, now)] else [])
    ensures e.reply != JoinedWaitlist ==> e.entries == entries && e.outbox == outbox
  {
    match body
    case Unparsable => Effect(SignupFailed, entries, outbox)
    case NullBody => Effect(SignupFailed, entries, outbox)
    case Parsed(field) =>
      match CheckEmail(field)
      case Rejected => Effect(InvalidEmail, entries, outbox)
      case Throws => Effect(SignupFailed, entries, outbox)
      case Accepted(email) =>
        if store == Succeeds then
          var sent := if mail == Succeeds then outbox + [AdminNotice(email, now)] else outbox;
          Effect(JoinedWaitlist, entries[WaitlistKey(now, email) := Signup(email, now, false)], sent)
        else
          Effect(SignupFailed, entries, outbox)
  }

  /** Every waitlist entry sits under the key built from its own timestamp and email. */
  ghost predicate WellKeyed(entries: map<string, Signup>)
  {
    forall k :: k in entries && Prefix <= k ==> k == WaitlistKey(entries[k].timestamp, entries[k].email)
  }

  /** The key-value collaborator, seen as a map from keys to stored values. */
  class KvStore {
    var entries: map<string, Signup>

    constructor (initial: map<string, Signup>)
      ensures entries == initial
    {
      entries := initial;
    }

    /** `kv.set`: a point update, or nothing if the call throws. */
    method Set(key: string, value: Signup, outcome: Outcome) returns (ok: bool)
      modifies this
      ensures ok <==> outcome == Succeeds
      ensures entries == if ok then old(entries)[key := value] else old(entries)
    {
      ok := outcome == Succeeds;
      if ok {
        entries := entries[key := value];
      }
    }

    /** `kv.getByPrefix`: the entries under `prefix`, or nothing if the call throws. */
    method GetByPrefix(prefix: string, outcome: Outcome) returns (r: Option<map<string, Signup>>)
      ensures r.Some? <==> outcome == Succeeds
      ensures r.Some? ==> r.value == ByPrefix(entries, prefix)
    {
      if outcome == Succeeds {
        r := Some(ByPrefix(entries, prefix));
      } else {
        r := None;
      }
    }
  }

  /** The mail collaborator; `outbox` holds the notifications it accepted. */
  class Mailer {
    var outbox: seq<Notice>

    constructor ()
      ensures outbox == []
    {
      outbox := [];
    }

    method Send(n: Notice, outcome: Outcome) returns (ok: bool)
      modifies this
      ensures ok <==> outcome == Succeeds
      ensures outbox == if ok then old(outbox) + [n] else old(outbox)
    {
      ok := outcome == Succeeds;
      if ok {
        outbox := outbox + [n];
      }
    }
  }

  /** The server function's routes, over its two collaborators. */
  class Server {
    const kv: KvStore
    const mailer: Mailer

    constructor (kv: KvStore, mailer: Mailer)
      ensures this.kv == kv && this.mailer == mailer
    {
      this.kv := kv;
      this.mailer := mailer;
    }

    /** GET /health. */
    method Health() returns (r: Reply)
      ensures r.status == 200 && r.payload == Status("ok")
    {
      r := HealthOk;
    }

    /** POST /waitlist. */
    method PostWaitlist(body: Body, now: string, store: Outcome, mail: Outcome) returns (r: Reply)
      modifies kv, mailer
      ensures Effect(r, kv.entries, mailer.outbox) ==
              Post(old(kv.entries), old(mailer.outbox), body, now, store, mail)
    {
      if body.Unparsable? || body.NullBody? {
        return SignupFailed;
      }
      var verdict := CheckEmail(body.email);
      if verdict.Rejected? {
        return InvalidEmail;
      }
      if verdict.Throws? {
        return SignupFailed;
      }
      var email := verdict.email;
      var ok := kv.Set(WaitlistKey(now, email), Signup(email, now, false), store);
      if !ok {
        return SignupFailed;
      }
      // A failed notification is caught and ignored.
      var _ := mailer.Send(AdminNotice(email, now), mail);
      r := JoinedWaitlist;
    }

    /** GET /waitlist. */
    method GetWaitlist(read: Outcome) returns (r: Reply)
      ensures read == Succeeds ==> r.status == 200 && r.payload == Signups(ByPrefix(kv.entries, Prefix))
      ensures read == Fails ==> r == Reply(500, Error("Failed to fetch signups"))
    {
      var signups := kv.GetByPrefix(Prefix, read);
      if signups.None? {
        return FetchFailed;
      }
      r := Reply(200, Signups(signups.value));
    }
  }

  /** Keys of one email at two different timestamps never collide. */
  lemma {:induction false} KeysDifferForDistinctTimestamps(t1: string, t2: string, email: string)
    requires t1 != t2
    ensures WaitlistKey(t1, email) != WaitlistKey(t2, email)
  {
    var k1, k2 := WaitlistKey(t1, email), WaitlistKey(t2, email);
    if |t1| != |t2| {
      assert |k1| != |k2|;
    } else {
      var i :| 0 <= i < |t1| && t1[i] != t2[i];
      assert k1[|Prefix| + i] == t1[i];
      assert k2[|Prefix| + i] == t2[i];
    }
  }

  /** With timestamps of one width, a key determines its timestamp and email. */
  lemma {:induction false} KeyInjective(t1: string, e1: string, t2: string, e2: string)
    requires |t1| == |t2|
    requires WaitlistKey(t1, e1) == WaitlistKey(t2, e2)
    ensures t1 == t2 && e1 == e2
  {
    var k := WaitlistKey(t1, e1);
    var n := |Prefix| + |t1|;
    assert k[|Prefix|..n] == t1;
    assert WaitlistKey(t2, e2)[|Prefix|..n] == t2;
    assert k[n + 1..] == e1;
    assert WaitlistKey(t2, e2)[n + 1..] == e2;
  }

  /** Without a fixed width, two different signups can share a key. */
  lemma KeyAmbiguousAcrossWidths()
    ensures WaitlistKey("1", "2:a@b") == WaitlistKey("1:2", "a@b")
  {
  }

  /** `ParseKey` recovers the timestamp and email of any ISO-width key. */
  lemma {:induction false} ParseKeyInvertsKey(timestamp: string, email: string)
    requires |timestamp| == IsoWidth
    ensures ParseKey(WaitlistKey(timestamp, email)) == Some((timestamp, email))
  {
    var k := WaitlistKey(timestamp, email);
    var split := |Prefix| + IsoWidth;
    assert k[split] == ':';
    assert k[|Prefix|..split] == timestamp;
    assert k[split + 1..] == email;
  }

  /** Any string with an '@', even "@" alone, is stored exactly as sent. */
  lemma AtSignAloneJoins(entries: map<string, Signup>, outbox: seq<Notice>, now: string, mail: Outcome)
    ensures var e := Post(entries, outbox, Parsed(Text("@")), now, Succeeds, mail);
            e.reply == JoinedWaitlist && WaitlistKey(now, "@") in e.entries &&
            e.entries[WaitlistKey(now, "@")] == Signup("@", now, false)
  {
  }

  /** The mail service's outcome changes neither the reply nor the store. */
  lemma MailOutcomeIgnored(entries: map<string, Signup>, outbox: seq<Notice>, body: Body, now: string,
                           store: Outcome)
    ensures Post(entries, outbox, body, now, store, Succeeds).reply ==
            Post(entries, outbox, body, now, store, Fails).reply
    ensures Post(entries, outbox, body, now, store, Succeeds).entries ==
            Post(entries, outbox, body, now, store, Fails).entries
  {
  }

  /**
   * No de-duplication: the same email at two timestamps leaves two records,
   * the first untouched by the second.
   */
  lemma {:induction false} SameEmailTwiceKeepsBoth(entries: map<string, Signup>, outbox: seq<Notice>,
                                                  email: string, t1: string, t2: string,
                                                  mail1: Outcome, mail2: Outcome)
    requires '@' in email && t1 != t2
    ensures var first := Post(entries, outbox, Parsed(Text(email)), t1, Succeeds, mail1);
            var second := Post(first.entries, first.outbox, Parsed(Text(email)), t2, Succeeds, mail2);
            first.reply == JoinedWaitlist && second.reply == JoinedWaitlist &&
            WaitlistKey(t1, email) in second.entries && WaitlistKey(t2, email) in second.entries &&
            second.entries[WaitlistKey(t1, email)] == Signup(email, t1, false) &&
            second.entries[WaitlistKey(t2, email)] == Signup(email, t2, false)
  {
    KeysDifferForDistinctTimestamps(t1, t2, email);
  }

  /** A request that does not end in 200 changes neither the store nor the mail sent. */
  lemma FailedPostChangesNothing(entries: map<string, Signup>, outbox: seq<Notice>, body: Body, now: string,
                                 store: Outcome, mail: Outcome)
    requires body.Unparsable? || body.NullBody? || body == Parsed(NonText(true)) || store == Fails
    ensures var e := Post(entries, outbox, body, now, store, mail);
            e.reply == SignupFailed || e.reply == InvalidEmail
    ensures var e := Post(entries, outbox, body, now, store, mail);
            e.entries == entries && e.outbox == outbox
  {
  }

  /** Every handled request keeps each waitlist entry under its own key. */
  lemma PostKeepsWellKeyed(entries: map<string, Signup>, outbox: seq<Notice>, body: Body,
                           now: string, store: Outcome, mail: Outcome)
    requires WellKeyed(entries)
    ensures WellKeyed(Post(entries, outbox, body, now, store, mail).entries)
  {
  }

  /** A signup that joined is listed by the next GET, under its key. */
  lemma JoinedSignupIsListed(entries: map<string, Signup>, outbox: seq<Notice>, email: string,
                              now: string, mail: Outcome)
    requires '@' in email
    ensures var e := Post(entries, outbox, Parsed(Text(email)), now, Succeeds, mail);
            var listed := ByPrefix(e.entries, Prefix);
            WaitlistKey(now, email) in listed && listed[WaitlistKey(now, email)] == Signup(email, now, false)
  {
  }
}
