/** The coordinator's session table and the offers it makes from it. */
module Coordinator {
  import opened Basics
  import opened Candidates
  import opened Endpoints
  import opened CandidateExchange
  import opened Pairs

  const OFFER_REFRESH := 120.0
  const SESSION_TTL := 180

  /** One entry of SESSIONS; `lastPush` and `prints` are keyed by server address. */
  datatype Session = Session(
    id: string,
    started: nat,
    key: string,
    ip: string,
    instance: string,
    lastSeen: real,
    lastPush: map<string, real>,
    prints: map<string, string>)

  type Sessions = map<string, Session>

  // ---------------------------------------------------------------- one push

  /** What a push of one client to one server is made of. */
  datatype Push = Push(id: string, started: nat, client: Peer, lan: string, candidates: seq<Candidate>, server: Peer)

  /** `json.dumps` of a candidate list. */
  type Json = seq<Candidate> -> string

  function Fields(json: Json, p: Push): seq<string> {
    [p.id, p.client.key, p.client.instance, p.client.endpoint, p.lan, json(p.candidates), p.server.key,
     p.server.endpoint]
  }

  /** `"|".join(fields)`. */
  function Join(fields: seq<string>): string {
    if fields == [] then ""
    else if |fields| == 1 then fields[0]
    else fields[0] + "|" + Join(fields[1..])
  }

  function Fingerprint(json: Json, p: Push): string {
    Join(Fields(json, p))
  }

  function EndpointIp(lib: Library, endpoint: string): string {
    var e := Parse(lib, endpoint);
    if e.None? then "" else e.value.host.text
  }

  /** An offer without its lease. */
  datatype Payload = Payload(
    sessionId: string,
    started: nat,
    key: string,
    ip: string,
    instance: string,
    endpoint: string,
    lan: bool,
    candidates: seq<Candidate>)

  /** The body of `push_offer`; nothing when the client has no endpoint to offer. */
  function PayloadOf(lib: Library, p: Push): Option<Payload> {
    var sameNat := EndpointIp(lib, p.server.endpoint) == EndpointIp(lib, p.client.endpoint);
    var endpoint := if sameNat then p.lan else p.client.endpoint;
    if endpoint == "" then None
    else
      Some(Payload(p.id, p.started, p.client.key, p.client.ip, p.client.instance, endpoint, sameNat,
                   OfferCandidates(lib, p.lan, p.candidates, p.client.endpoint)))
  }

  /** `int(time.time()) + SESSION_TTL`. */
  function LeaseOf(sentAt: real): real {
    (sentAt.Floor + SESSION_TTL) as real
  }

  // ---------------------------------------------------------------- the session table

  datatype Opening = Opening(sessions: Sessions, session: Session, stale: Option<Session>)

  predicate NeedsNew(existing: Option<Session>, client: Peer, instanceId: string) {
    || existing.None? || existing.value.key != client.key
    || (instanceId != "" && existing.value.instance != instanceId)
  }

  /** The first locked region of `coordinate_client`. */
  function Open(ss: Sessions, client: Peer, instanceId: string, now: real, newId: string, newStart: nat): Opening {
    var existing := Get(ss, client.ip);
    if NeedsNew(existing, client, instanceId) then
      var s := Session(newId, newStart, client.key, client.ip, instanceId, now, map[], map[]);
      Opening(ss[client.ip := s], s, existing)
    else
      var s := existing.value.(lastSeen := now);
      Opening(ss[client.ip := s], s, None)
  }

  function LastPush(s: Session, serverIp: string): real {
    if serverIp in s.lastPush then s.lastPush[serverIp] else 0.0
  }

  /** The offer has to be pushed now. */
  predicate Due(s: Session, serverIp: string, mark: string, now: real, force: bool) {
    force || Get(s.prints, serverIp) != Some(mark) || now - LastPush(s, serverIp) >= OFFER_REFRESH
  }

  function Stamps(results: map<string, string>, now: real): map<string, real> {
    map ip | ip in results :: now
  }

  function Record(s: Session, now: real, results: map<string, string>): Session {
    s.(lastSeen := now, lastPush := s.lastPush + Stamps(results, now), prints := s.prints + results)
  }

  /** The last locked region of `coordinate_client`: results go only into the session that sent them. */
  function Store(ss: Sessions, ip: string, id: string, now: real, results: map<string, string>): Sessions {
    if ip !in ss || ss[ip].id != id then ss else ss[ip := Record(ss[ip], now, results)]
  }

  predicate Lapsed(s: Session, now: real) {
    now - s.lastSeen > SESSION_TTL as real
  }

  function Kept(ss: Sessions, now: real): Sessions {
    map ip | ip in ss && !Lapsed(ss[ip], now) :: ss[ip]
  }

  function LapsedSessions(ss: Sessions, now: real): set<Session> {
    set ip | ip in ss && Lapsed(ss[ip], now) :: ss[ip]
  }

  /** The pushes of one sync that are due. */
  function Pending(json: Json, s: Session, base: Push, servers: seq<Peer>, now: real, force: bool): seq<Push> {
    if servers == [] then []
    else
      var p := base.(server := servers[0]);
      var rest := Pending(json, s, base, servers[1..], now, force);
      if Due(s, p.server.ip, Fingerprint(json, p), now, force) then [p] + rest else rest
  }

  lemma OneMore<V>(base: map<string, V>, added: map<string, V>, todo: set<string>, ip: string)
    requires ip in todo && ip in added
    ensures base + (added - (todo - {ip})) == (base + (added - todo))[ip := added[ip]]
  {
  }

  method RecordResults(before: Session, now: real, results: map<string, string>) returns (s: Session)
    ensures s == Record(before, now, results)
  {
    s := before.(lastSeen := now);
    ghost var stamps := Stamps(results, now);
    var todo := results.Keys;
    while todo != {}
      invariant todo <= results.Keys
      invariant s == before.(lastSeen := now, lastPush := s.lastPush, prints := s.prints)
      invariant s.lastPush == before.lastPush + (stamps - todo)
      invariant s.prints == before.prints + (results - todo)
    {
      var ip :| ip in todo;
      OneMore(before.lastPush, stamps, todo, ip);
      OneMore(before.prints, results, todo, ip);
      s := s.(lastPush := s.lastPush[ip := now], prints := s.prints[ip := results[ip]]);
      todo := todo - {ip};
    }
    assert results - {} == results && stamps - {} == stamps;
  }

  lemma PendingHead(json: Json, s: Session, base: Push, servers: seq<Peer>, done: seq<Push>, now: real, force: bool)
    requires servers != []
    ensures var p := base.(server := servers[0]);
            done + Pending(json, s, base, servers, now, force)
            == (if Due(s, p.server.ip, Fingerprint(json, p), now, force) then done + [p] else done)
               + Pending(json, s, base, servers[1..], now, force)
  {
    var p, rest := base.(server := servers[0]), Pending(json, s, base, servers[1..], now, force);
    assert done + ([p] + rest) == (done + [p]) + rest;
  }

  class Coordinator {
    var sessions: Sessions

    constructor ()
      ensures sessions == map[]
    {
      sessions := map[];
    }

    method OpenSession(client: Peer, instanceId: string, now: real, newId: string, newStart: nat)
      returns (session: Session, stale: Option<Session>)
      modifies this
      ensures var o := Open(old(sessions), client, instanceId, now, newId, newStart);
              sessions == o.sessions && session == o.session && stale == o.stale
    {
      var existing := if client.ip in sessions then Some(sessions[client.ip]) else None;
      var isNew := existing == None || existing.value.key != client.key;
      if !isNew && instanceId != "" && existing.value.instance != instanceId {
        isNew := true;
      }
      stale := None;
      if isNew {
        stale := existing;
        session := Session(newId, newStart, client.key, client.ip, instanceId, now, map[], map[]);
      } else {
        session := existing.value.(key := client.key);
        if instanceId != "" {
          session := session.(instance := instanceId);
        }
        session := session.(lastSeen := now);
      }
      sessions := sessions[client.ip := session];
    }

    /** The loop that decides which servers get a push. */
    method Decide(json: Json, session: Session, base: Push, servers: seq<Peer>, now: real, force: bool)
      returns (pending: seq<Push>)
      ensures pending == Pending(json, session, base, servers, now, force)
    {
      pending := [];
      assert servers[0..] == servers;
      for i := 0 to |servers|
        invariant Pending(json, session, base, servers, now, force)
               == pending + Pending(json, session, base, servers[i..], now, force)
      {
        assert servers[i..][0] == servers[i] && servers[i..][1..] == servers[i + 1..];
        PendingHead(json, session, base, servers[i..], pending, now, force);
        var p := base.(server := servers[i]);
        var mark := Fingerprint(json, p);
        var last := if p.server.ip in session.lastPush then session.lastPush[p.server.ip] else 0.0;
        var refreshDue := now - last >= OFFER_REFRESH;
        if force || !(p.server.ip in session.prints && session.prints[p.server.ip] == mark) || refreshDue {
          pending := pending + [p];
        }
      }
      assert servers[|servers|..] == [];
      assert pending + [] == pending;
    }

    method StoreResults(ip: string, id: string, now: real, results: map<string, string>)
      modifies this
      ensures sessions == Store(old(sessions), ip, id, now, results)
    {
      if ip !in sessions || sessions[ip].id != id {
        return;
      }
      var session := RecordResults(sessions[ip], now, results);
      sessions := sessions[ip := session];
    }

    method Disconnect(ip: string) returns (closed: Option<Session>)
      modifies this
      ensures closed == Get(old(sessions), ip) && sessions == old(sessions) - {ip}
    {
      closed := None;
      if ip in sessions {
        closed := Some(sessions[ip]);
        sessions := sessions - {ip};
      }
    }

    /** One round of the reaper. */
    method Reap(now: real) returns (expired: set<Session>)
      modifies this
      ensures sessions == Kept(old(sessions), now) && expired == LapsedSessions(old(sessions), now)
    {
      ghost var before := sessions;
      expired := {};
      var todo := sessions.Keys;
      while todo != {}
        invariant todo <= before.Keys
        invariant sessions == map ip | ip in before && (ip in todo || !Lapsed(before[ip], now)) :: before[ip]
        invariant expired == set ip | ip in before && ip !in todo && Lapsed(before[ip], now) :: before[ip]
      {
        var ip :| ip in todo;
        if now - sessions[ip].lastSeen > SESSION_TTL as real {
          expired := expired + {sessions[ip]};
          sessions := sessions - {ip};
        }
        todo := todo - {ip};
      }
    }
  }
}
