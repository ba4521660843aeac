/**
 * The monitoring engine of src/lib.rs (`run`): the priming pass, one steady
 * pass with its notification fan-out, the defaults it applies and the
 * sleep length. The endless `loop` and the sleep itself are not modelled.
 *
 * The table `list` lives in a Monitor object. Everything the engine does
 * that can be observed, the table writes and every call into `pings::send`
 * and `emails::send`, is appended in program order to its `trace`.
 */
module Monitoring {
  import opened Wrappers
  import Urls
  import Emails
  import Pings
  import opened Config

  /** The sender used when the configuration names none. */
  const DEFAULT_SENDER := "wbmrs@localhost"

  /** The largest timeout (minutes) whose length in seconds fits in u32. */
  const MAX_TIMEOUT := 71582788

  /** Line 25: verbosity unless the configuration says otherwise. */
  function Verbose(c: Config): bool {
    c.verbose.GetOr(false)
  }

  function SenderOf(c: Config): string {
    c.sender.GetOr(DEFAULT_SENDER)
  }

  function ContentOf(content: Option<string>): string {
    content.GetOr("")
  }

  /** Verbosity is off exactly when the configuration does not switch it on. */
  lemma VerboseDefault(c: Config)
    ensures Verbose(c) <==> c.verbose == Some(true)
  {
  }

  /**
   * Line 115: `config.timeout * 60` in u32. In a release build the product
   * wraps modulo 2^32; it is the intended number of seconds exactly when
   * the timeout is at most MAX_TIMEOUT.
   */
  function SleepSeconds(timeout: u32): (r: u32)
    ensures r == timeout * 60 <==> timeout <= MAX_TIMEOUT
  {
    (timeout * 60) % 0x1_0000_0000
  }

  /** The world a steady pass talks to: address validation, the mail transport, the HTTP client. */
  datatype Channels = Channels(isAddress: Emails.IsAddress, mail: Emails.MailTransport, post: Pings.Transport)

  /** The observable effects of a pass. */
  datatype Event =
    | Stored(url: string, fingerprint: string)
    | Pinged(endpoint: string, page: string, message: string, response: Result<string, string>)
    | Emailed(from: string, to: string, page: string, message: string, outcome: Result<(), Emails.EmailError>)

  /** Lines 63-75: the call to `pings::send` for one webhook, whatever it returns. */
  function PingEvent(p: Ping, page: string, ch: Channels): Event {
    var message := ContentOf(p.content);
    Pinged(p.url, page, message, Pings.Send(ch.post, p.url, message, page))
  }

  /** Lines 86-101: the call to `emails::send` for one address, whatever it returns. */
  function EmailEvent(e: Email, sender: string, page: string, ch: Channels): Event {
    var message := ContentOf(e.content);
    Emailed(sender, e.address, page, message, Emails.Send(ch.isAddress, ch.mail, sender, e.address, message, page))
  }

  function PingEvents(ps: seq<Ping>, page: string, ch: Channels): seq<Event> {
    if ps == [] then [] else PingEvents(ps[..|ps| - 1], page, ch) + [PingEvent(ps[|ps| - 1], page, ch)]
  }

  function EmailEvents(es: seq<Email>, sender: string, page: string, ch: Channels): seq<Event> {
    if es == [] then [] else EmailEvents(es[..|es| - 1], sender, page, ch) + [EmailEvent(es[|es| - 1], sender, page, ch)]
  }

  /** Lines 61-108: every webhook, then every email address, each in list order. */
  function Notifications(c: Config, ch: Channels, page: string): seq<Event> {
    PingEvents(c.pings.GetOr([]), page, ch) + EmailEvents(c.emails.GetOr([]), SenderOf(c), page, ch)
  }

  /** Lines 34-37 and 52-55: `compare`, with a fetch error read as "no new hash". */
  function Check(fetch: Urls.Fetch, digest: Urls.Digest, url: string, stored: string): Option<Urls.HexDigest> {
    match Urls.Compare(fetch, digest, url, stored)
    case Ok(change) => change
    case Err(_) => None
  }

  /** The entry a pass leaves for `url`. */
  function Refreshed(fetch: Urls.Fetch, digest: Urls.Digest, url: string, stored: string): string {
    match Check(fetch, digest, url, stored)
    case Some(r) => r
    case None => stored
  }

  /** The table after one pass: the same keys, each entry refreshed against its old value. */
  function Updated(table: map<string, string>, fetch: Urls.Fetch, digest: Urls.Digest): (t: map<string, string>)
    ensures t.Keys == table.Keys
  {
    map k | k in table :: Refreshed(fetch, digest, k, table[k])
  }

  /** The priming pass notifies no one; a steady pass notifies with a configuration and its channels. */
  datatype Phase = Priming | Steady(config: Config, channels: Channels)

  /** The effects of visiting one URL whose snapshot entry is `stored`. */
  function Visit(phase: Phase, fetch: Urls.Fetch, digest: Urls.Digest, url: string, stored: string): seq<Event> {
    match Check(fetch, digest, url, stored)
    case None => []
    case Some(r) => [Stored(url, r)] + (if phase.Steady? then Notifications(phase.config, phase.channels, url) else [])
  }

  /** The effects of visiting the URLs of `order` in turn, each against the snapshot `table`. */
  function PassEvents(phase: Phase, fetch: Urls.Fetch, digest: Urls.Digest, table: map<string, string>, order: seq<string>): seq<Event>
    requires forall k | k in order :: k in table
  {
    if order == [] then []
    else
      var k := order[|order| - 1];
      PassEvents(phase, fetch, digest, table, order[..|order| - 1]) + Visit(phase, fetch, digest, k, table[k])
  }

  /** Lines 34-41 and 52-57, 109-111: a failed fetch is read as "unchanged"; nothing is stored or sent. */
  lemma FetchFailureIsQuiet(phase: Phase, fetch: Urls.Fetch, digest: Urls.Digest, url: string, stored: string)
    requires fetch(url).Err?
    ensures Visit(phase, fetch, digest, url, stored) == []
    ensures Refreshed(fetch, digest, url, stored) == stored
  {
  }

  /** Lines 57 and 109-111: content whose digest is the stored fingerprint changes nothing and sends nothing. */
  lemma UnchangedIsQuiet(phase: Phase, fetch: Urls.Fetch, digest: Urls.Digest, url: string, stored: string)
    requires fetch(url).Ok? && digest(fetch(url).value) == stored
    ensures Visit(phase, fetch, digest, url, stored) == []
    ensures Refreshed(fetch, digest, url, stored) == stored
  {
  }

  /**
   * Lines 57-61: on a change the new fingerprint is stored first, and only
   * then does a steady pass make its fan-out; no later effect writes the table.
   */
  lemma ChangeIsStoredFirst(phase: Phase, fetch: Urls.Fetch, digest: Urls.Digest, url: string, stored: string)
    requires fetch(url).Ok? && digest(fetch(url).value) != stored
    ensures var events := Visit(phase, fetch, digest, url, stored);
      && Refreshed(fetch, digest, url, stored) == digest(fetch(url).value)
      && events[0] == Stored(url, digest(fetch(url).value))
      && events[1..] == (if phase.Steady? then Notifications(phase.config, phase.channels, url) else [])
      && forall e | e in events[1..] :: !e.Stored?
  {
    if phase.Steady? {
      NotificationsStoreNothing(phase.config, phase.channels, url);
    }
  }

  /** Visiting one more URL appends that URL's effects. */
  lemma PassEventsSnoc(phase: Phase, fetch: Urls.Fetch, digest: Urls.Digest, table: map<string, string>, order: seq<string>, i: nat)
    requires i < |order| && forall k | k in order :: k in table
    ensures PassEvents(phase, fetch, digest, table, order[..i + 1])
         == PassEvents(phase, fetch, digest, table, order[..i]) + Visit(phase, fetch, digest, order[i], table[order[i]])
  {
    assert order[..i + 1][..i] == order[..i];
  }

  lemma TraceStep(phase: Phase, fetch: Urls.Fetch, digest: Urls.Digest, table: map<string, string>, order: seq<string>, i: nat,
                  start: seq<Event>, t: seq<Event>)
    requires i < |order| && forall k | k in order :: k in table
    requires t == start + PassEvents(phase, fetch, digest, table, order[..i]) + Visit(phase, fetch, digest, order[i], table[order[i]])
    ensures t == start + PassEvents(phase, fetch, digest, table, order[..i + 1])
  {
    PassEventsSnoc(phase, fetch, digest, table, order, i);
    AppendAssociates(start, PassEvents(phase, fetch, digest, table, order[..i]), Visit(phase, fetch, digest, order[i], table[order[i]]));
  }

  lemma AppendAssociates<T>(a: seq<T>, b: seq<T>, c: seq<T>)
    ensures a + b + c == a + (b + c)
  {
  }

  /** Lines 30-43: the priming pass stores fingerprints and makes no call to a webhook or a mail server. */
  lemma {:induction false} PrimingNeverNotifies(fetch: Urls.Fetch, digest: Urls.Digest, table: map<string, string>, order: seq<string>)
    requires forall k | k in order :: k in table
    ensures forall e | e in PassEvents(Priming, fetch, digest, table, order) :: e.Stored?
  {
    if order != [] {
      var init, k := order[..|order| - 1], order[|order| - 1];
      assert forall x | x in init :: x in order;
      PrimingNeverNotifies(fetch, digest, table, init);
      assert PassEvents(Priming, fetch, digest, table, order)
          == PassEvents(Priming, fetch, digest, table, init) + Visit(Priming, fetch, digest, k, table[k]);
    }
  }

  /** Every visit to an entry already refreshed against the same content is quiet. */
  lemma {:induction false} RefreshedPassIsQuiet(phase: Phase, fetch: Urls.Fetch, digest: Urls.Digest, table: map<string, string>, order: seq<string>)
    requires forall k | k in order :: k in table
    ensures PassEvents(phase, fetch, digest, Updated(table, fetch, digest), order) == []
  {
    if order != [] {
      var init, k := order[..|order| - 1], order[|order| - 1];
      assert forall x | x in init :: x in order;
      RefreshedPassIsQuiet(phase, fetch, digest, table, init);
      var t := Updated(table, fetch, digest);
      if fetch(k).Err? {
        FetchFailureIsQuiet(phase, fetch, digest, k, t[k]);
      } else {
        UnchangedIsQuiet(phase, fetch, digest, k, t[k]);
      }
    }
  }

  /**
   * A second pass over unchanged pages finds nothing new: the table is a
   * fixed point of Updated and the pass stores and sends nothing.
   */
  lemma SecondPassIsQuiet(phase: Phase, fetch: Urls.Fetch, digest: Urls.Digest, table: map<string, string>, order: seq<string>)
    requires Enumerates(order, table.Keys)
    ensures Updated(Updated(table, fetch, digest), fetch, digest) == Updated(table, fetch, digest)
    ensures PassEvents(phase, fetch, digest, Updated(table, fetch, digest), order) == []
  {
    var t := Updated(table, fetch, digest);
    forall k | k in t
      ensures Refreshed(fetch, digest, k, t[k]) == t[k]
    {
      if fetch(k).Err? {
        FetchFailureIsQuiet(phase, fetch, digest, k, t[k]);
      } else {
        UnchangedIsQuiet(phase, fetch, digest, k, t[k]);
      }
    }
    RefreshedPassIsQuiet(phase, fetch, digest, table, order);
  }

  /** An iteration order of a HashMap: every key exactly once. */
  predicate Enumerates(order: seq<string>, keys: set<string>) {
    && (forall i, j | 0 <= i < j < |order| :: order[i] != order[j])
    && (forall k | k in order :: k in keys)
    && (forall k | k in keys :: k in order)
  }

  /** The table obtained by applying the Stored events of `events`, oldest first. */
  function Replay(table: map<string, string>, events: seq<Event>): map<string, string> {
    if events == [] then table
    else
      var t := Replay(table, events[..|events| - 1]);
      match events[|events| - 1]
      case Stored(url, fingerprint) => t[url := fingerprint]
      case _ => t
  }

  lemma {:induction false} ReplayConcat(table: map<string, string>, a: seq<Event>, b: seq<Event>)
    ensures Replay(table, a + b) == Replay(Replay(table, a), b)
  {
    if b == [] {
      assert a + b == a;
    } else {
      assert (a + b)[..|a + b| - 1] == a + b[..|b| - 1];
      ReplayConcat(table, a, b[..|b| - 1]);
    }
  }

  lemma {:induction false} ReplayQuiet(table: map<string, string>, events: seq<Event>)
    requires forall e | e in events :: !e.Stored?
    ensures Replay(table, events) == table
  {
    if events != [] {
      assert forall e | e in events[..|events| - 1] :: e in events;
      ReplayQuiet(table, events[..|events| - 1]);
    }
  }

  lemma {:induction false} PingEventsAt(ps: seq<Ping>, page: string, ch: Channels)
    ensures |PingEvents(ps, page, ch)| == |ps|
    ensures forall i | 0 <= i < |ps| :: PingEvents(ps, page, ch)[i] == PingEvent(ps[i], page, ch)
  {
    if ps != [] {
      PingEventsAt(ps[..|ps| - 1], page, ch);
    }
  }

  lemma {:induction false} EmailEventsAt(es: seq<Email>, sender: string, page: string, ch: Channels)
    ensures |EmailEvents(es, sender, page, ch)| == |es|
    ensures forall i | 0 <= i < |es| :: EmailEvents(es, sender, page, ch)[i] == EmailEvent(es[i], sender, page, ch)
  {
    if es != [] {
      EmailEventsAt(es[..|es| - 1], sender, page, ch);
    }
  }

  /**
   * The fan-out for a changed page: exactly one call per webhook, then
   * exactly one per email address, each in list order and each made whatever
   * the others returned. A webhook or email without a message sends "";
   * without a configured sender, mail comes from DEFAULT_SENDER.
   */
  lemma NotificationsFanOut(c: Config, ch: Channels, page: string)
    ensures var ps, es := c.pings.GetOr([]), c.emails.GetOr([]);
      && |Notifications(c, ch, page)| == |ps| + |es|
      && (forall i | 0 <= i < |ps| :: Notifications(c, ch, page)[i]
            == Pinged(ps[i].url, page, ContentOf(ps[i].content), Pings.Send(ch.post, ps[i].url, ContentOf(ps[i].content), page)))
      && (forall j | 0 <= j < |es| :: Notifications(c, ch, page)[|ps| + j]
            == Emailed(SenderOf(c), es[j].address, page, ContentOf(es[j].content),
                       Emails.Send(ch.isAddress, ch.mail, SenderOf(c), es[j].address, ContentOf(es[j].content), page)))
  {
    PingEventsAt(c.pings.GetOr([]), page, ch);
    EmailEventsAt(c.emails.GetOr([]), SenderOf(c), page, ch);
  }

  /** Sending notifications never writes the table. */
  lemma NotificationsStoreNothing(c: Config, ch: Channels, page: string)
    ensures forall e | e in Notifications(c, ch, page) :: e.Pinged? || e.Emailed?
  {
    var ps, es := c.pings.GetOr([]), c.emails.GetOr([]);
    var pinged, emailed := PingEvents(ps, page, ch), EmailEvents(es, SenderOf(c), page, ch);
    PingEventsAt(ps, page, ch);
    EmailEventsAt(es, SenderOf(c), page, ch);
    forall e: Event | e in pinged + emailed ensures e.Pinged? || e.Emailed? {
      if e in pinged {
        var n :| 0 <= n < |pinged| && pinged[n] == e;
        assert e == PingEvent(ps[n], page, ch);
      } else {
        var n :| 0 <= n < |emailed| && emailed[n] == e;
        assert e == EmailEvent(es[n], SenderOf(c), page, ch);
      }
    }
  }

  /** Replaying one visit writes the new hash, if any, and nothing else. */
  lemma ReplayVisit(phase: Phase, fetch: Urls.Fetch, digest: Urls.Digest, t: map<string, string>, url: string, stored: string)
    ensures Replay(t, Visit(phase, fetch, digest, url, stored))
         == match Check(fetch, digest, url, stored) case Some(r) => t[url := r] case None => t
  {
    match Check(fetch, digest, url, stored)
    case None =>
    case Some(r) =>
      var rest := if phase.Steady? then Notifications(phase.config, phase.channels, url) else [];
      assert Visit(phase, fetch, digest, url, stored) == [Stored(url, r)] + rest;
      ReplayConcat(t, [Stored(url, r)], rest);
      assert Replay(t, [Stored(url, r)]) == t[url := r];
      if phase.Steady? {
        NotificationsStoreNothing(phase.config, phase.channels, url);
      }
      ReplayQuiet(t[url := r], rest);
  }

  /** The table with the URLs of `order` refreshed and every other entry kept. */
  function Partial(table: map<string, string>, fetch: Urls.Fetch, digest: Urls.Digest, order: seq<string>): (t: map<string, string>)
    ensures t.Keys == table.Keys
  {
    map k | k in table :: if k in order then Refreshed(fetch, digest, k, table[k]) else table[k]
  }

  lemma PartialSnoc(table: map<string, string>, fetch: Urls.Fetch, digest: Urls.Digest, order: seq<string>)
    requires order != [] && order[|order| - 1] in table
    ensures var init, k := order[..|order| - 1], order[|order| - 1];
      Partial(table, fetch, digest, order)
        == match Check(fetch, digest, k, table[k])
           case Some(r) => Partial(table, fetch, digest, init)[k := r]
           case None => Partial(table, fetch, digest, init)
  {
    var init, k := order[..|order| - 1], order[|order| - 1];
    var before, after := Partial(table, fetch, digest, init), Partial(table, fetch, digest, order);
    assert forall x :: x in order <==> x in init || x == k;
    match Check(fetch, digest, k, table[k])
    case Some(r) =>
      assert forall x | x in table :: after[x] == before[k := r][x];
    case None =>
      assert forall x | x in table :: after[x] == before[x];
  }

  lemma ListStep(fetch: Urls.Fetch, digest: Urls.Digest, table: map<string, string>, order: seq<string>, i: nat,
                 before: map<string, string>, after: map<string, string>)
    requires i < |order| && order[i] in table
    requires before == Partial(table, fetch, digest, order[..i])
    requires after == match Check(fetch, digest, order[i], table[order[i]])
                      case Some(r) => before[order[i] := r]
                      case None => before
    ensures after == Partial(table, fetch, digest, order[..i + 1])
  {
    assert order[..i + 1][..i] == order[..i];
    PartialSnoc(table, fetch, digest, order[..i + 1]);
  }

  /**
   * The table writes a pass records are exactly the table it leaves: replaying
   * them over the snapshot refreshes the visited URLs and keeps the others.
   */
  lemma {:induction false} ReplayPass(phase: Phase, fetch: Urls.Fetch, digest: Urls.Digest, table: map<string, string>, order: seq<string>)
    requires forall k | k in order :: k in table
    ensures Replay(table, PassEvents(phase, fetch, digest, table, order)) == Partial(table, fetch, digest, order)
  {
    if order == [] {
      assert Partial(table, fetch, digest, order) == table;
    } else {
      var init, k := order[..|order| - 1], order[|order| - 1];
      assert forall x | x in init :: x in order;
      ReplayPass(phase, fetch, digest, table, init);
      ReplayConcat(table, PassEvents(phase, fetch, digest, table, init), Visit(phase, fetch, digest, k, table[k]));
      ReplayVisit(phase, fetch, digest, Partial(table, fetch, digest, init), k, table[k]);
      PartialSnoc(table, fetch, digest, order);
    }
  }

  /** Once every key has been visited, the partial table is the updated one. */
  lemma PartialComplete(table: map<string, string>, fetch: Urls.Fetch, digest: Urls.Digest, order: seq<string>)
    requires forall k | k in table :: k in order
    ensures Partial(table, fetch, digest, order) == Updated(table, fetch, digest)
  {
  }

  /** Over a full HashMap iteration, the recorded writes rebuild exactly the updated table. */
  lemma PassReplaysToTable(phase: Phase, fetch: Urls.Fetch, digest: Urls.Digest, table: map<string, string>, order: seq<string>)
    requires Enumerates(order, table.Keys)
    ensures Replay(table, PassEvents(phase, fetch, digest, table, order)) == Updated(table, fetch, digest)
  {
    ReplayPass(phase, fetch, digest, table, order);
    PartialComplete(table, fetch, digest, order);
  }

  class Monitor {
    /** URL to the fingerprint of its last fetched content ("" before the first). */
    var list: map<string, string>
    /** Table writes and notification attempts, oldest first. */
    var trace: seq<Event>

    /** Line 28: the table seeded from the configured URLs. */
    constructor (urls: seq<string>)
      ensures list.Keys == set u | u in urls
      ensures forall u | u in list :: list[u] == ""
      ensures trace == []
    {
      var seeded := Urls.HashList(urls);
      list := seeded;
      trace := [];
    }

    /**
     * Lines 30-43: the priming pass. Each URL is compared against its entry
     * in a snapshot of the table and a new hash is stored; nothing is sent.
     */
    method PrimingPass(order: seq<string>, fetch: Urls.Fetch, digest: Urls.Digest)
      requires Enumerates(order, list.Keys)
      modifies this
      ensures list.Keys == old(list.Keys)
      ensures list == Updated(old(list), fetch, digest)
      ensures trace == old(trace) + PassEvents(Priming, fetch, digest, old(list), order)
    {
      Pass(Priming, order, fetch, digest);
    }

    /**
     * Lines 47-112: one steady pass. A new hash is stored first; then every
     * webhook and every email address is notified, one call each, whatever
     * the earlier calls returned.
     */
    method SteadyPass(order: seq<string>, fetch: Urls.Fetch, digest: Urls.Digest, config: Config, channels: Channels)
      requires Enumerates(order, list.Keys)
      modifies this
      ensures list.Keys == old(list.Keys)
      ensures list == Updated(old(list), fetch, digest)
      ensures trace == old(trace) + PassEvents(Steady(config, channels), fetch, digest, old(list), order)
    {
      Pass(Steady(config, channels), order, fetch, digest);
    }

    /**
     * The loop over a snapshot of the table (lines 33-42 and 51-112): every
     * URL is visited once, in HashMap order, against its snapshot entry.
     */
    method Pass(phase: Phase, order: seq<string>, fetch: Urls.Fetch, digest: Urls.Digest)
      requires Enumerates(order, list.Keys)
      modifies this
      ensures list == Updated(old(list), fetch, digest)
      ensures trace == old(trace) + PassEvents(phase, fetch, digest, old(list), order)
    {
      var snapshot := list;
      ghost var start := trace;
      for i := 0 to |order|
        invariant list == Partial(snapshot, fetch, digest, order[..i])
        invariant trace == start + PassEvents(phase, fetch, digest, snapshot, order[..i])
      {
        var k := order[i];
        ghost var before := list;
        VisitEntry(phase, k, snapshot[k], fetch, digest);
        TraceStep(phase, fetch, digest, snapshot, order, i, start, trace);
        ListStep(fetch, digest, snapshot, order, i, before, list);
      }
      assert order[..|order|] == order;
      PartialComplete(snapshot, fetch, digest, order);
    }

    /**
     * The body of both loops (lines 34-41 and 52-111) for one URL, compared
     * against its snapshot entry `stored`: a fetch error is logged and read as
     * "no change"; a new hash is stored and, in a steady pass, only then is
     * the fan-out made.
     */
    method VisitEntry(phase: Phase, k: string, stored: string, fetch: Urls.Fetch, digest: Urls.Digest)
      modifies this
      ensures list == match Check(fetch, digest, k, stored)
                      case Some(r) => old(list)[k := r]
                      case None => old(list)
      ensures trace == old(trace) + Visit(phase, fetch, digest, k, stored)
    {
      var hash := Check(fetch, digest, k, stored);
      if hash.Some? {
        list := list[k := hash.value];
        ghost var before := trace;
        trace := trace + [Stored(k, hash.value)];
        if phase.Steady? {
          Notify(k, phase.config, phase.channels);
          AppendAssociates(before, [Stored(k, hash.value)], Notifications(phase.config, phase.channels, k));
        }
      }
    }

    /** Lines 61-108: the fan-out for one changed page. */
    method Notify(page: string, config: Config, channels: Channels)
      modifies this`trace
      ensures trace == old(trace) + Notifications(config, channels, page)
    {
      if config.pings.Some? {
        PingAll(page, config.pings.value, channels);
      }
      if config.emails.Some? {
        var sender := match config.sender case Some(s) => s case None => DEFAULT_SENDER;
        EmailAll(page, config.emails.value, sender, channels);
      }
      AppendAssociates(old(trace), PingEvents(config.pings.GetOr([]), page, channels),
                       EmailEvents(config.emails.GetOr([]), SenderOf(config), page, channels));
    }

    /** Lines 62-81: one `pings::send` per webhook, in order; a failure is logged and the loop goes on. */
    method PingAll(page: string, pings: seq<Ping>, channels: Channels)
      modifies this`trace
      ensures trace == old(trace) + PingEvents(pings, page, channels)
    {
      for i := 0 to |pings|
        invariant trace == old(trace) + PingEvents(pings[..i], page, channels)
      {
        var message := match pings[i].content case Some(c) => c case None => "";
        var response := Pings.Send(channels.post, pings[i].url, message, page);
        trace := trace + [Pinged(pings[i].url, page, message, response)];
        assert pings[..i + 1][..i] == pings[..i];
      }
      assert pings[..|pings|] == pings;
    }

    /** Lines 85-107: one `emails::send` per address, in order; a failure is logged and the loop goes on. */
    method EmailAll(page: string, emails: seq<Email>, sender: string, channels: Channels)
      modifies this`trace
      ensures trace == old(trace) + EmailEvents(emails, sender, page, channels)
    {
      for i := 0 to |emails|
        invariant trace == old(trace) + EmailEvents(emails[..i], sender, page, channels)
      {
        var message := match emails[i].content case Some(c) => c case None => "";
        var outcome := Emails.Send(channels.isAddress, channels.mail, sender, emails[i].address, message, page);
        trace := trace + [Emailed(sender, emails[i].address, page, message, outcome)];
        assert emails[..i + 1][..i] == emails[..i];
      }
      assert emails[..|emails|] == emails;
    }
  }
}
