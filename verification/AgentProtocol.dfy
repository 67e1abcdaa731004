/** The signed agent protocol: `Client.Send`, `IngressServer.process` and the feeder rows behind it.

    The network may lose, duplicate, reorder and alter messages, and agents may crash at any
    point. Ed25519 (section 5.1 of RFC 8032) is an ideal signature: a signature carries the key
    and exactly the fields it was made over, and nobody can make one for an agent's key but that
    agent. SHA-256 is injective: a payload stands for its own digest. */
module AgentProtocol {
  import opened Text
  import opened Domain
  import opened Signing
  import opened Traces

  type Key = nat
  type Payload = seq<Byte>
  type TokenHash = nat
  type ClientId = nat

  const PROTOCOL_VERSION := 1
  const MAX_COMPRESSED_BYTES := 0x20_0000
  const MAX_CLOCK_SKEW := 120_000_000_000

  datatype Signature = Signature(key: Key, version: int, feeder: FeederId, sequence: Uint64, millis: int,
                                 payload: Payload)
  datatype Envelope = Envelope(version: int, feeder: FeederId, sequence: Uint64, sentAt: int, payload: Payload,
                               signature: Signature)

  datatype Error = ErrIdentity | ErrVersion | ErrSignature | ErrPayload | ErrClock | ErrSequenceRejected | ErrRefused

  // ---------- envelopes ----------

  /** `FeederID.Valid`, which normalises before it checks, and not the reserved ID. */
  predicate Addressable(id: FeederId) {
    NormalizeFeederId(id).Some? && id != FEEDER_ALL
  }

  predicate ValidPayload(p: Payload) {
    0 < |p| <= MAX_COMPRESSED_BYTES
  }

  function Seal(key: Key, version: int, feeder: FeederId, sequence: Uint64, sentAt: int, payload: Payload): Signature {
    Signature(key, version, feeder, sequence, UnixMilli(sentAt), payload)
  }

  function SignEnvelope(key: Key, feeder: FeederId, sequence: Uint64, sentAt: int, payload: Payload): Option<Envelope> {
    if !Addressable(feeder) || sequence == 0 || !ValidPayload(payload) then None
    else Some(Envelope(PROTOCOL_VERSION, feeder, sequence, sentAt, payload,
                       Seal(key, PROTOCOL_VERSION, feeder, sequence, sentAt, payload)))
  }

  function VerifyEnvelope(key: Option<Key>, e: Envelope, now: int): Option<Error> {
    if e.version != PROTOCOL_VERSION then Some(ErrVersion)
    else if key.None? || !Addressable(e.feeder) || e.sequence == 0 then Some(ErrSignature)
    else if !ValidPayload(e.payload) then Some(ErrPayload)
    else if e.sentAt < now - MAX_CLOCK_SKEW || now + MAX_CLOCK_SKEW < e.sentAt then Some(ErrClock)
    else if e.signature != Seal(key.value, e.version, e.feeder, e.sequence, e.sentAt, e.payload) then Some(ErrSignature)
    else None
  }

  // ---------- the feeder row ----------

  datatype Row = Row(agent: bool, enabled: bool, key: Option<Key>, lastSequence: Uint64, lastPayload: Option<Payload>)
  datatype Token = Token(feeder: FeederId, expiresAt: int, consumed: bool, revoked: bool)
  datatype Acceptance = Accepted | Duplicate | Rejected

  function AcceptSequence(row: Option<Row>, sequence: Uint64, payload: Payload): Acceptance {
    if sequence == 0 || row.None? || !row.value.enabled || row.value.key.None? then Rejected
    else if sequence < row.value.lastSequence then Rejected
    else if sequence == row.value.lastSequence then (if row.value.lastPayload == Some(payload) then Duplicate else Rejected)
    else Accepted
  }

  function AfterAccept(row: Row, sequence: Uint64, payload: Payload): Row {
    row.(lastSequence := sequence, lastPayload := Some(payload))
  }

  predicate Redeemable(tokens: map<TokenHash, Token>, token: TokenHash, now: int) {
    token in tokens && !tokens[token].consumed && !tokens[token].revoked && now < tokens[token].expiresAt
  }

  function Enrolled(row: Row, key: Key): Row {
    row.(key := Some(key), lastSequence := 0, lastPayload := None, enabled := true)
  }

  function Revoked(row: Row): Row {
    row.(enabled := false, key := None, lastPayload := None)
  }

  function TokensRevoked(tokens: map<TokenHash, Token>, id: FeederId): map<TokenHash, Token> {
    map t | t in tokens :: if tokens[t].feeder == id && !tokens[t].consumed && !tokens[t].revoked
                           then tokens[t].(revoked := true) else tokens[t]
  }

  class FeederStore {
    var rows: map<FeederId, Row>
    var tokens: map<TokenHash, Token>

    constructor ()
      ensures rows == map[] && tokens == map[]
    {
      rows, tokens := map[], map[];
    }

    /** Exactly the strictly newer sequences move the row; everything else leaves it alone. */
    method AcceptFeederSequence(id: FeederId, sequence: Uint64, payload: Payload) returns (r: Acceptance)
      modifies this`rows
      ensures r == AcceptSequence(Find(old(rows), id), sequence, payload)
      ensures r.Accepted? <==> && id in old(rows) && old(rows)[id].enabled && old(rows)[id].key.Some?
                               && sequence > old(rows)[id].lastSequence
      ensures r.Duplicate? <==> && id in old(rows) && old(rows)[id].enabled && old(rows)[id].key.Some?
                                && sequence == old(rows)[id].lastSequence > 0 && old(rows)[id].lastPayload == Some(payload)
      ensures r.Accepted? ==> id in old(rows) && rows == old(rows)[id := AfterAccept(old(rows)[id], sequence, payload)]
      ensures r.Accepted? ==> rows[id].lastSequence > old(rows)[id].lastSequence
      ensures !r.Accepted? ==> rows == old(rows)
    {
      if sequence == 0 || id !in rows {
        return Rejected;
      }
      var row := rows[id];
      if !row.enabled || row.key.None? {
        return Rejected;
      }
      if sequence < row.lastSequence {
        return Rejected;
      }
      if sequence == row.lastSequence {
        return if row.lastPayload == Some(payload) then Duplicate else Rejected;
      }
      rows := rows[id := row.(lastSequence := sequence, lastPayload := Some(payload))];
      return Accepted;
    }

    /** A token works once, before it expires, and restarts the sequence under the new key. */
    method ConsumeFeederEnrollment(token: TokenHash, key: Key, now: int) returns (feeder: Option<FeederId>)
      modifies this
      ensures feeder.Some? <==> && token in old(tokens) && !old(tokens)[token].consumed && !old(tokens)[token].revoked
                                && now < old(tokens)[token].expiresAt && old(tokens)[token].feeder in old(rows)
      ensures Redeemable(old(tokens), token, now) ==> !Redeemable(tokens, token, now)
      ensures tokens == if Redeemable(old(tokens), token, now)
                        then old(tokens)[token := old(tokens)[token].(consumed := true)] else old(tokens)
      ensures feeder.Some? ==> feeder.value == old(tokens)[token].feeder
                               && rows == old(rows)[feeder.value := Enrolled(old(rows)[feeder.value], key)]
                               && rows[feeder.value].enabled && rows[feeder.value].key == Some(key)
                               && rows[feeder.value].lastSequence == 0
      ensures feeder.None? ==> rows == old(rows)
    {
      if token !in tokens || tokens[token].consumed || tokens[token].revoked || !(now < tokens[token].expiresAt) {
        return None;
      }
      var id := tokens[token].feeder;
      tokens := tokens[token := tokens[token].(consumed := true)];
      if id !in rows {
        return None;
      }
      rows := rows[id := rows[id].(key := Some(key), lastSequence := 0, lastPayload := None, enabled := true)];
      return Some(id);
    }

    /** After a revocation the feeder accepts nothing and no outstanding token can bring it back. */
    method RevokeFeeder(id: FeederId) returns (found: bool)
      modifies this
      ensures found <==> id in old(rows) && old(rows)[id].agent
      ensures found ==> rows == old(rows)[id := Revoked(old(rows)[id])] && !rows[id].enabled && rows[id].key.None?
      ensures found ==> tokens == TokensRevoked(old(tokens), id)
      ensures found ==> forall t, now :: t in tokens && tokens[t].feeder == id ==> !Redeemable(tokens, t, now)
      ensures !found ==> rows == old(rows) && tokens == old(tokens)
    {
      if id !in rows || !rows[id].agent {
        return false;
      }
      rows := rows[id := rows[id].(enabled := false, key := None, lastPayload := None)];
      tokens := TokensRevoked(tokens, id);
      return true;
    }
  }

  // ---------- the server ----------

  /** What one `process` call does to its feeder row, and whether it published. */
  datatype Processed = Processed(row: Option<Row>, published: bool, error: Option<Error>)

  /** `decodes` and `admitted` are the verdicts of the snapshot decoder and of the manager. */
  function Process(row: Option<Row>, e: Envelope, now: int, decodes: bool, admitted: bool): Processed {
    if row.None? || !row.value.enabled || !row.value.agent then Processed(row, false, Some(ErrIdentity)) else
    var bad := VerifyEnvelope(row.value.key, e, now);
    if bad.Some? then Processed(row, false, bad)
    else if !decodes then Processed(row, false, Some(ErrPayload)) else
    var acceptance := AcceptSequence(row, e.sequence, e.payload);
    if acceptance.Rejected? then Processed(row, false, Some(ErrSequenceRejected)) else
    var next := if acceptance.Accepted? then Some(AfterAccept(row.value, e.sequence, e.payload)) else row;
    if admitted then Processed(next, true, None) else Processed(next, false, Some(ErrRefused))
  }

  /** An envelope the row has accepted may be sent again, whether the manager published it or refused
      it: the row stays as it is, and the manager is asked again while the clock allows. */
  lemma RetryLeavesSequenceAlone(row: Row, e: Envelope, now: int, decodes: bool, admitted: bool,
                                 later: int, decodesThen: bool, admittedThen: bool)
    requires var error := Process(Some(row), e, now, decodes, admitted).error; error.None? || error == Some(ErrRefused)
    ensures var after := Process(Some(row), e, now, decodes, admitted).row;
            var retry := Process(after, e, later, decodesThen, admittedThen);
            && retry.row == after
            && (-MAX_CLOCK_SKEW <= e.sentAt - later <= MAX_CLOCK_SKEW ==> (retry.published <==> decodesThen && admittedThen))
  {
    var after := Process(Some(row), e, now, decodes, admitted).row;
    assert AcceptSequence(after, e.sequence, e.payload).Duplicate?;
  }

  // ---------- the agent ----------

  datatype Credential = Credential(feeder: FeederId, key: Key, sequence: Uint64)

  /** `file` is the durable credential file; the other fields are lost in a crash. `enrolling`
      holds the key of an enrolment whose reply has not been stored yet. */
  datatype Agent = Agent(file: Option<Credential>, credential: Option<Credential>, pending: Option<Envelope>,
                         enrolling: Option<Credential>)

  const FreshAgent := Agent(None, None, None, None)

  function NextSequence(n: Uint64): Uint64 {
    (n + 1) % 0x1_0000_0000_0000_0000
  }

  /** The part of `Send` before the request: sign a new envelope unless one is pending. The new
      sequence number is stored durably before the envelope becomes pending. */
  function Prepare(a: Agent, payload: Payload, now: int, saved: bool): Agent {
    if a.credential.None? || a.pending.Some? then a else
    var c := a.credential.value;
    var e := SignEnvelope(c.key, c.feeder, NextSequence(c.sequence), now, payload);
    if e.None? then a else
    var next := c.(sequence := NextSequence(c.sequence));
    if saved then a.(credential := Some(next), file := Some(next), pending := e)
    else a.(credential := Some(next))
  }

  function Acknowledged(a: Agent): Agent {
    a.(pending := None)
  }

  function Restarted(a: Agent): Agent {
    Agent(a.file, a.file, None, None)
  }

  class AgentClient {
    var file: Option<Credential>
    var credential: Option<Credential>
    var pending: Option<Envelope>

    ghost function View(): Agent
      reads this
    {
      Agent(file, credential, pending, None)
    }

    constructor ()
      ensures View() == FreshAgent
    {
      file, credential, pending := None, None, None;
    }

    /** `encoded` is the compressed snapshot or None, `saves` and `accepted` what the disk and the
        server answer. The posted envelope is the pending one; only an acknowledgement clears it. */
    method Send(encoded: Option<Payload>, now: int, saves: bool, accepted: bool) returns (posted: Option<Envelope>,
                                                                                          ok: bool)
      modifies this
      ensures var prepared := if encoded.Some? then Prepare(old(View()), encoded.value, now, saves) else old(View());
              && posted == (if old(credential).None? then None else prepared.pending)
              && ok == (posted.Some? && accepted)
              && View() == if ok then Acknowledged(prepared) else prepared
      ensures posted.Some? && old(pending).None? ==> file.Some? && file.value.sequence == posted.value.sequence
    {
      posted, ok := None, false;
      if credential.None? {
        return;
      }
      if pending.None? {
        if encoded.None? {
          return;
        }
        var next := NextSequence(credential.value.sequence);
        var envelope := SignEnvelope(credential.value.key, credential.value.feeder, next, now, encoded.value);
        if envelope.None? {
          return;
        }
        credential := Some(credential.value.(sequence := next));
        if !saves {
          return;
        }
        file := credential;
        pending := envelope;
      }
      posted := pending;
      if !accepted {
        return;
      }
      pending := None;
      ok := true;
    }

    /** Crash and restart: what `LoadCredentials` finds is all that is left. */
    method Restart()
      modifies this
      ensures View() == Restarted(old(View()))
    {
      credential := file;
      pending := None;
    }
  }

  // ---------- the whole system ----------

  datatype Publication = Publication(feeder: FeederId, key: Key, envelope: Envelope)

  /** `sent` is everything ever posted: the network delivers any of it, any number of times, in
      any order, or never. `owner` names the agent that generated each key. */
  datatype World = World(
    rows: map<FeederId, Row>,
    tokens: map<TokenHash, Token>,
    agents: map<ClientId, Agent>,
    owner: map<Key, ClientId>,
    sent: set<Envelope>,
    acks: set<Envelope>,
    published: seq<Publication>)

  datatype Action =
    | IssueToken(token: TokenHash, feeder: FeederId, expiresAt: int)
    | SetEnabled(feeder: FeederId, enabled: bool)
    | Revoke(feeder: FeederId)
    | Enrol(client: ClientId, token: TokenHash, key: Key, now: int)
    | StoreCredential(client: ClientId, saved: bool)
    | PrepareSend(client: ClientId, payload: Payload, now: int, saved: bool)
    | Post(client: ClientId)
    | Reply(client: ClientId)
    | Crash(client: ClientId)
    | Deliver(envelope: Envelope, now: int, decodes: bool, admitted: bool)

  /** Signatures under an agent's key exist only on envelopes that agent posted. The rest of a
      delivered envelope may have been altered, and other keys may have signed anything. */
  predicate Unforged(w: World, e: Envelope) {
    e.signature.key in w.owner ==> exists s :: s in w.sent && s.signature == e.signature
  }

  /** One critical section of one party; an action that is not possible changes nothing. */
  function Next(w: World, a: Action): World {
    match a
    case IssueToken(token, feeder, expiresAt) =>
      if token in w.tokens then w else w.(tokens := w.tokens[token := Token(feeder, expiresAt, false, false)])
    case SetEnabled(feeder, enabled) =>
      if feeder !in w.rows then w else w.(rows := w.rows[feeder := w.rows[feeder].(enabled := enabled)])
    case Revoke(feeder) =>
      if feeder !in w.rows || !w.rows[feeder].agent then w
      else w.(rows := w.rows[feeder := Revoked(w.rows[feeder])], tokens := TokensRevoked(w.tokens, feeder))
    case Enrol(client, token, key, now) =>
      if client !in w.agents || key in w.owner || !Redeemable(w.tokens, token, now) || w.tokens[token].feeder !in w.rows then w else
      var feeder := w.tokens[token].feeder;
      w.(rows := w.rows[feeder := Enrolled(w.rows[feeder], key)],
         tokens := w.tokens[token := w.tokens[token].(consumed := true)],
         owner := w.owner[key := client],
         agents := w.agents[client := w.agents[client].(enrolling := Some(Credential(feeder, key, 0)))])
    case StoreCredential(client, saved) =>
      if client !in w.agents || w.agents[client].enrolling.None? then w else
      var a := w.agents[client];
      w.(agents := w.agents[client := if saved then a.(file := a.enrolling, credential := a.enrolling,
                                                       enrolling := None)
                                      else a.(enrolling := None)])
    case PrepareSend(client, payload, now, saved) =>
      if client !in w.agents then w else w.(agents := w.agents[client := Prepare(w.agents[client], payload, now,
                                                                                 saved)])
    case Post(client) =>
      if client !in w.agents || w.agents[client].pending.None? then w
      else w.(sent := w.sent + {w.agents[client].pending.value})
    case Reply(client) =>
      if client !in w.agents || w.agents[client].pending.None? || w.agents[client].pending.value !in w.acks then w
      else w.(agents := w.agents[client := Acknowledged(w.agents[client])])
    case Crash(client) =>
      if client !in w.agents then w else w.(agents := w.agents[client := Restarted(w.agents[client])])
    case Deliver(e, now, decodes, admitted) =>
      if e.feeder !in w.rows || !Unforged(w, e) then w else
      var row := w.rows[e.feeder];
      var p := Process(Some(row), e, now, decodes, admitted);
      if p.row.None? || row.key.None? then w else
      w.(rows := w.rows[e.feeder := p.row.value],
         published := if p.published then w.published + [Publication(e.feeder, row.key.value, e)] else w.published,
         acks := if p.error.None? then w.acks + {e} else w.acks)
  }

  function Run(w: World, actions: seq<Action>): World {
    if actions == [] then w else Next(Run(w, actions[..|actions| - 1]), actions[|actions| - 1])
  }

  /** Any feeders and agents, nothing enrolled and nothing sent yet. */
  predicate Initial(w: World) {
    && (forall f :: f in w.rows ==> w.rows[f].key.None?)
    && (forall c :: c in w.agents ==> w.agents[c] == FreshAgent)
    && w.owner == map[] && w.sent == {} && w.acks == {} && w.published == []
  }

  // ---------- invariants ----------

  /** Everything signed so far: posted, or pending at some agent. */
  ghost predicate Exists(w: World, e: Envelope) {
    e in w.sent || exists c :: c in w.agents && w.agents[c].pending == Some(e)
  }

  predicate Holds(a: Agent, key: Key) {
    || (a.file.Some? && a.file.value.key == key)
    || (a.credential.Some? && a.credential.value.key == key)
    || (a.enrolling.Some? && a.enrolling.value.key == key)
  }

  ghost predicate AgentInv(w: World, c: ClientId)
    requires c in w.agents
  {
    var a := w.agents[c];
    && (forall k :: Holds(a, k) ==> k in w.owner && w.owner[k] == c)
    && (a.credential.Some? <==> a.file.Some?)
    && (a.file.Some? ==> a.file.value.key == a.credential.value.key && a.file.value.sequence <= a.credential.value.sequence)
    && (a.enrolling.Some? && a.file.Some? ==> a.enrolling.value.key != a.file.value.key)
  }

  /** What `SignEnvelope` refuses to sign never exists. */
  predicate WellFormed(e: Envelope) {
    && e.version == 1 && Addressable(e.feeder) && e.sequence != 0
    && 0 < |e.payload| <= 2_097_152
  }

  /** A signed envelope is genuine and never above its agent's durable sequence number. */
  ghost predicate EnvelopeInv(w: World, e: Envelope) {
    var k := e.signature.key;
    && WellFormed(e) && e.signature == Seal(k, e.version, e.feeder, e.sequence, e.sentAt, e.payload)
    && k in w.owner && w.owner[k] in w.agents
    && (var a := w.agents[w.owner[k]];
        && !(a.enrolling.Some? && a.enrolling.value.key == k)
        && (a.file.Some? && a.file.value.key == k ==> e.sequence <= a.file.value.sequence))
  }

  ghost predicate NoReuse(w: World) {
    forall d, e :: Exists(w, d) && Exists(w, e) && d.signature.key == e.signature.key && d.sequence == e.sequence ==>
      d == e
  }

  /** Every publication is at or below the row's high-water mark while its key is enrolled. */
  ghost predicate PublicationInv(w: World, p: Publication) {
    && p.envelope.feeder == p.feeder && p.key in w.owner
    && (exists s :: s in w.sent && s.signature == p.envelope.signature)
    && p.envelope.signature == Seal(p.key, p.envelope.version, p.feeder, p.envelope.sequence, p.envelope.sentAt, p.envelope.payload)
    && (p.feeder in w.rows && w.rows[p.feeder].key == Some(p.key) ==>
          && p.envelope.sequence <= w.rows[p.feeder].lastSequence
          && (p.envelope.sequence == w.rows[p.feeder].lastSequence ==> w.rows[p.feeder].lastPayload == Some(p.envelope.payload)))
  }

  ghost predicate AgentSide(w: World) {
    && (forall c :: c in w.agents ==> AgentInv(w, c))
    && (forall e :: Exists(w, e) ==> EnvelopeInv(w, e))
    && NoReuse(w)
  }

  ghost predicate ServerSide(w: World) {
    && (forall f :: f in w.rows && w.rows[f].key.Some? ==> w.rows[f].key.value in w.owner)
    && (forall i :: 0 <= i < |w.published| ==> PublicationInv(w, w.published[i]))
    && Ordered(w.published)
    && (forall e :: e in w.acks ==> WasPublished(w, e))
  }

  ghost predicate WasPublished(w: World, e: Envelope) {
    exists i :: 0 <= i < |w.published| && w.published[i].envelope == e
  }

  ghost predicate Inv(w: World) {
    AgentSide(w) && ServerSide(w)
  }

  /** Under one key of one feeder, what is published later never has a smaller sequence number,
      and an equal sequence number means the same payload. */
  ghost predicate Ordered(published: seq<Publication>) {
    forall i, j :: 0 <= i < j < |published| && published[i].feeder == published[j].feeder && published[i].key == published[j].key ==>
      && published[i].envelope.sequence <= published[j].envelope.sequence
      && (published[i].envelope.sequence == published[j].envelope.sequence ==>
            published[i].envelope.payload == published[j].envelope.payload)
  }

  // ---------- every step keeps the invariant ----------

  /** Envelopes exist in `v` only if they did in `w`, when nothing was posted and no agent's
      pending envelope changed other than to None. */
  lemma NothingNew(w: World, v: World, e: Envelope)
    requires v.sent == w.sent && v.agents.Keys == w.agents.Keys && Exists(v, e)
    requires forall c :: c in w.agents ==> v.agents[c].pending == w.agents[c].pending || v.agents[c].pending.None?
    ensures Exists(w, e)
  {
    if e !in v.sent {
      var c :| c in v.agents && v.agents[c].pending == Some(e);
      assert w.agents[c].pending == Some(e);
    }
  }

  /** Server facts do not depend on what the agents hold. */
  lemma ServerUntouched(w: World, v: World)
    requires ServerSide(w) && v.rows == w.rows && v.owner == w.owner && w.sent <= v.sent
    requires v.published == w.published && v.acks == w.acks
    ensures ServerSide(v)
  {
    forall i | 0 <= i < |v.published|
      ensures PublicationInv(v, v.published[i])
    {
      assert PublicationInv(w, w.published[i]);
    }
    forall e | e in v.acks
      ensures WasPublished(v, e)
    {
      assert WasPublished(w, e);
    }
  }

  lemma EnrolKeepsServer(w: World, a: Action)
    requires ServerSide(w) && a.Enrol?
    ensures ServerSide(Next(w, a))
  {
    hide Process, Prepare, Unforged, TokensRevoked;
    var v := Next(w, a);
    forall i | 0 <= i < |v.published|
      ensures PublicationInv(v, v.published[i])
    {
      assert PublicationInv(w, w.published[i]);
    }
    forall e | e in v.acks
      ensures WasPublished(v, e)
    {
      assert WasPublished(w, e);
    }
  }

  lemma EnrolKeepsAgent(w: World, a: Action, c: ClientId)
    requires AgentSide(w) && a.Enrol? && c in w.agents
    ensures AgentInv(Next(w, a), c)
  {
    hide EnvelopeInv, NoReuse, Exists, Process, Prepare, Unforged, Redeemable, TokensRevoked;
    assert AgentInv(w, c);
  }

  lemma EnrolKeepsEnvelope(w: World, a: Action, e: Envelope)
    requires AgentSide(w) && a.Enrol? && Exists(Next(w, a), e)
    ensures Exists(w, e) && EnvelopeInv(Next(w, a), e)
  {
    hide Process, Prepare, Unforged, Redeemable, TokensRevoked, AgentInv, NoReuse;
    NothingNew(w, Next(w, a), e);
    assert EnvelopeInv(w, e);
  }

  lemma EnrolKeepsAgents(w: World, a: Action)
    requires AgentSide(w) && a.Enrol?
    ensures AgentSide(Next(w, a))
  {
    hide Next, AgentInv, EnvelopeInv;
    EnrolFrame(w, a);
    forall c | c in w.agents
      ensures AgentInv(Next(w, a), c)
    {
      EnrolKeepsAgent(w, a, c);
    }
    forall e | Exists(Next(w, a), e)
      ensures Exists(w, e) && EnvelopeInv(Next(w, a), e)
    {
      EnrolKeepsEnvelope(w, a, e);
    }
  }

  lemma EnrolFrame(w: World, a: Action)
    requires a.Enrol?
    ensures Next(w, a).agents.Keys == w.agents.Keys
  {
    hide Redeemable;
  }

  lemma EnrolStep(w: World, a: Action)
    requires Inv(w) && a.Enrol?
    ensures Inv(Next(w, a))
  {
    hide AgentSide, ServerSide, Next;
    EnrolKeepsAgents(w, a);
    EnrolKeepsServer(w, a);
  }

  lemma StoreKeepsAgent(w: World, client: ClientId, saved: bool, c: ClientId)
    requires AgentSide(w) && c in w.agents
    ensures AgentInv(Next(w, StoreCredential(client, saved)), c)
  {
    hide EnvelopeInv, NoReuse, Exists, Process, Prepare, Unforged, Redeemable, TokensRevoked;
    assert AgentInv(w, c);
  }

  lemma ReplyKeepsAgent(w: World, client: ClientId, c: ClientId)
    requires AgentSide(w) && c in w.agents
    ensures AgentInv(Next(w, Reply(client)), c)
  {
    hide EnvelopeInv, NoReuse, Exists, Process, Prepare, Unforged, Redeemable, TokensRevoked;
    assert AgentInv(w, c);
  }

  lemma CrashKeepsAgent(w: World, client: ClientId, c: ClientId)
    requires AgentSide(w) && c in w.agents
    ensures AgentInv(Next(w, Crash(client)), c)
  {
    hide EnvelopeInv, NoReuse, Exists, Process, Prepare, Unforged, Redeemable, TokensRevoked;
    assert AgentInv(w, c);
  }

  lemma QuietAgent(w: World, a: Action, c: ClientId)
    requires AgentSide(w) && (a.StoreCredential? || a.Reply? || a.Crash?) && c in w.agents
    ensures AgentInv(Next(w, a), c)
  {
    hide Next, AgentSide, AgentInv;
    if a.StoreCredential? {
      StoreKeepsAgent(w, a.client, a.saved, c);
    } else if a.Reply? {
      ReplyKeepsAgent(w, a.client, c);
    } else {
      CrashKeepsAgent(w, a.client, c);
    }
  }

  /** What a quiet step may do to an agent. */
  ghost predicate QuietChange(w: World, v: World) {
    && v.sent == w.sent && v.owner == w.owner && v.agents.Keys == w.agents.Keys
    && forall c :: c in w.agents ==>
         && (v.agents[c].pending == w.agents[c].pending || v.agents[c].pending.None?)
         && (v.agents[c].file == w.agents[c].file || v.agents[c].file == w.agents[c].enrolling)
         && (v.agents[c].enrolling == w.agents[c].enrolling || v.agents[c].enrolling.None?)
  }

  lemma StoreIsQuiet(w: World, client: ClientId, saved: bool)
    ensures QuietChange(w, Next(w, StoreCredential(client, saved)))
  {
    hide Process, Prepare, Unforged, Redeemable, TokensRevoked;
  }

  lemma ReplyIsQuiet(w: World, client: ClientId)
    ensures QuietChange(w, Next(w, Reply(client)))
  {
    hide Process, Prepare, Unforged, Redeemable, TokensRevoked;
  }

  lemma CrashIsQuiet(w: World, client: ClientId)
    ensures QuietChange(w, Next(w, Crash(client)))
  {
    hide Process, Prepare, Unforged, Redeemable, TokensRevoked;
  }

  lemma QuietFrame(w: World, a: Action)
    requires a.StoreCredential? || a.Reply? || a.Crash?
    ensures QuietChange(w, Next(w, a))
  {
    hide Next, QuietChange;
    if a.StoreCredential? {
      StoreIsQuiet(w, a.client, a.saved);
    } else if a.Reply? {
      ReplyIsQuiet(w, a.client);
    } else {
      CrashIsQuiet(w, a.client);
    }
  }

  lemma QuietEnvelope(w: World, a: Action, e: Envelope)
    requires AgentSide(w) && (a.StoreCredential? || a.Reply? || a.Crash?) && Exists(Next(w, a), e)
    ensures Exists(w, e) && EnvelopeInv(Next(w, a), e)
  {
    hide Next;
    QuietFrame(w, a);
    NothingNew(w, Next(w, a), e);
    assert EnvelopeInv(w, e);
  }

  lemma QuietAgentStep(w: World, a: Action)
    requires AgentSide(w) && (a.StoreCredential? || a.Reply? || a.Crash?)
    ensures AgentSide(Next(w, a))
  {
    forall c | c in Next(w, a).agents
      ensures AgentInv(Next(w, a), c)
    {
      QuietAgent(w, a, c);
    }
    forall e | Exists(Next(w, a), e)
      ensures Exists(w, e) && EnvelopeInv(Next(w, a), e)
    {
      QuietEnvelope(w, a, e);
    }
    hide Next;
  }

  lemma PostStep(w: World, a: Action)
    requires AgentSide(w) && a.Post?
    ensures AgentSide(Next(w, a))
  {
    var v := Next(w, a);
    forall e | Exists(v, e)
      ensures Exists(w, e) && EnvelopeInv(v, e)
    {
      if e !in v.sent {
        var d :| d in v.agents && v.agents[d].pending == Some(e);
        assert w.agents[d].pending == Some(e);
      }
      assert Exists(w, e);
    }
  }

  /** The new envelope is above everything its key signed before. */
  lemma PrepareIsFresh(w: World, a: Action, e: Envelope)
    requires AgentSide(w) && a.PrepareSend? && a.client in w.agents
    requires Next(w, a).agents[a.client].pending != w.agents[a.client].pending
    requires Exists(Next(w, a), e) && Next(w, a).agents[a.client].pending != Some(e)
    ensures var made := Next(w, a).agents[a.client].pending.value;
            Exists(w, e) && (e.signature.key == made.signature.key ==> e.sequence < made.sequence)
  {
    var v := Next(w, a);
    if e !in v.sent {
      var d :| d in v.agents && v.agents[d].pending == Some(e);
      assert w.agents[d].pending == Some(e);
    }
    assert EnvelopeInv(w, e);
    assert AgentInv(w, a.client);
    assert Holds(w.agents[a.client], w.agents[a.client].credential.value.key);
  }

  lemma SignedIsWellFormed(key: Key, feeder: FeederId, sequence: Uint64, sentAt: int, payload: Payload)
    requires SignEnvelope(key, feeder, sequence, sentAt, payload).Some?
    ensures WellFormed(SignEnvelope(key, feeder, sequence, sentAt, payload).value)
  {
    hide Addressable;
  }

  lemma PrepareStep(w: World, a: Action)
    requires AgentSide(w) && a.PrepareSend?
    ensures AgentSide(Next(w, a))
  {
    hide WellFormed, Addressable, ValidPayload;
    var v := Next(w, a);
    if a.client in w.agents {
      if w.agents[a.client].credential.Some? {
        var c := w.agents[a.client].credential.value;
        if SignEnvelope(c.key, c.feeder, NextSequence(c.sequence), a.now, a.payload).Some? {
          SignedIsWellFormed(c.key, c.feeder, NextSequence(c.sequence), a.now, a.payload);
        }
      }
      assert AgentInv(w, a.client);
      PrepareKeepsAgents(w, a);
      if v.agents[a.client].pending == w.agents[a.client].pending {
        forall e | Exists(v, e)
          ensures Exists(w, e) && EnvelopeInv(v, e)
        {
          NothingNew(w, v, e);
          assert EnvelopeInv(w, e);
        }
      } else {
        var made := v.agents[a.client].pending.value;
        assert Holds(w.agents[a.client], made.signature.key);
        forall e | Exists(v, e)
          ensures e == made || (Exists(w, e) && (e.signature.key == made.signature.key ==> e.sequence < made.sequence))
          ensures EnvelopeInv(v, e)
        {
          if e != made {
            PrepareIsFresh(w, a, e);
            assert EnvelopeInv(w, e);
          }
        }
      }
    }
  }

  lemma PrepareKeepsAgents(w: World, a: Action)
    requires AgentSide(w) && a.PrepareSend? && a.client in w.agents
    ensures forall c :: c in Next(w, a).agents ==> AgentInv(Next(w, a), c)
  {
    var v := Next(w, a);
    forall c | c in v.agents
      ensures AgentInv(v, c)
    {
      assert AgentInv(w, c);
      assert forall k :: Holds(v.agents[c], k) ==> Holds(w.agents[c], k);
    }
  }

  lemma AgentsUntouched(w: World, v: World)
    requires AgentSide(w) && v.agents == w.agents && v.owner == w.owner && v.sent == w.sent
    ensures AgentSide(v)
  {
    forall c | c in v.agents
      ensures AgentInv(v, c)
    {
      assert AgentInv(w, c);
    }
    forall e | Exists(v, e)
      ensures Exists(w, e) && EnvelopeInv(v, e)
    {
      NothingNew(w, v, e);
      assert EnvelopeInv(w, e);
    }
  }

  lemma AdminStep(w: World, a: Action)
    requires ServerSide(w) && (a.IssueToken? || a.SetEnabled? || a.Revoke?)
    ensures ServerSide(Next(w, a))
  {
    var v := Next(w, a);
    forall i | 0 <= i < |v.published|
      ensures PublicationInv(v, v.published[i])
    {
      assert PublicationInv(w, w.published[i]);
    }
    forall e | e in v.acks
      ensures WasPublished(v, e)
    {
      assert WasPublished(w, e);
    }
  }

  /** One delivery: the row never goes back, and what it publishes is the row's new mark. */
  lemma DeliveryAdvances(w: World, a: Action)
    requires a.Deliver? && a.envelope.feeder in w.rows
    ensures var f := a.envelope.feeder;
            var before, after := w.rows[f], Next(w, a).rows[f];
            && after.key == before.key && after.lastSequence >= before.lastSequence
            && (after.lastSequence == before.lastSequence ==> after == before)
    ensures var f := a.envelope.feeder;
            var after := Next(w, a).rows[f];
            Next(w, a).published != w.published ==>
              && after.key.Some? && Next(w, a).published == w.published + [Publication(f, after.key.value, a.envelope)]
              && after.lastSequence == a.envelope.sequence && after.lastPayload == Some(a.envelope.payload)
              && a.envelope.signature ==
                   Seal(after.key.value, a.envelope.version, f, a.envelope.sequence, a.envelope.sentAt,
                        a.envelope.payload)
              && Unforged(w, a.envelope)
    ensures Next(w, a).acks != w.acks ==> Next(w, a).published != w.published && Next(w, a).acks == w.acks + {a.envelope}
  {
    hide Prepare, Unforged, Redeemable, TokensRevoked;
  }

  lemma DeliverKeepsPublications(w: World, a: Action)
    requires ServerSide(w) && a.Deliver? && a.envelope.feeder in w.rows
    ensures forall i :: 0 <= i < |Next(w, a).published| ==> PublicationInv(Next(w, a), Next(w, a).published[i])
    ensures Ordered(Next(w, a).published)
  {
    hide Next, WasPublished;
    var v := Next(w, a);
    DeliveryAdvances(w, a);
    DeliverFrame(w, a);
    forall i | 0 <= i < |v.published|
      ensures PublicationInv(v, v.published[i])
    {
      if i < |w.published| {
        assert PublicationInv(w, w.published[i]);
        assert v.published[i] == w.published[i];
      }
    }
    assert forall i :: 0 <= i < |w.published| ==> PublicationInv(w, w.published[i]);
  }

  lemma DeliverAcknowledges(w: World, a: Action, e: Envelope)
    requires ServerSide(w) && a.Deliver? && a.envelope.feeder in w.rows && e in Next(w, a).acks
    ensures WasPublished(Next(w, a), e)
  {
    var v := Next(w, a);
    DeliveryAdvances(w, a);
    hide Next, PublicationInv, Ordered;
    if e in w.acks {
      assert WasPublished(w, e);
      var i :| 0 <= i < |w.published| && w.published[i].envelope == e;
      assert v.published[i].envelope == e;
    } else {
      assert v.published[|w.published|].envelope == e;
    }
  }

  lemma DeliverStep(w: World, a: Action)
    requires ServerSide(w) && a.Deliver?
    ensures ServerSide(Next(w, a))
  {
    if a.envelope.feeder in w.rows {
      DeliverKeepsPublications(w, a);
      DeliveryAdvances(w, a);
      DeliverFrame(w, a);
      hide Next, PublicationInv, Ordered, WasPublished;
      forall e | e in Next(w, a).acks
        ensures WasPublished(Next(w, a), e)
      {
        DeliverAcknowledges(w, a, e);
      }
    }
  }

  lemma DeliverFrame(w: World, a: Action)
    requires a.Deliver?
    ensures var v := Next(w, a);
            && v.agents == w.agents && v.owner == w.owner && v.sent == w.sent
            && v.rows.Keys == w.rows.Keys && forall f :: f in w.rows && f != a.envelope.feeder ==> v.rows[f] == w.rows[f]
  {
  }

  lemma StepKeepsInv(w: World, a: Action)
    requires Inv(w)
    ensures Inv(Next(w, a))
  {
    hide AgentSide, ServerSide;
    var v := Next(w, a);
    match a
    case Enrol(_, _, _, _) => EnrolStep(w, a);
    case StoreCredential(_, _) => QuietAgentStep(w, a); ServerUntouched(w, v);
    case PrepareSend(_, _, _, _) => PrepareStep(w, a); ServerUntouched(w, v);
    case Post(_) => PostStep(w, a); ServerUntouched(w, v);
    case Reply(_) => QuietAgentStep(w, a); ServerUntouched(w, v);
    case Crash(_) => QuietAgentStep(w, a); ServerUntouched(w, v);
    case Deliver(_, _, _, _) => DeliverStep(w, a); DeliverFrame(w, a); AgentsUntouched(w, v);
    case _ => AdminStep(w, a); AgentsUntouched(w, v);
  }

  // ---------- safety of every run ----------

  lemma {:induction false} RunKeepsInv(w: World, actions: seq<Action>)
    requires Initial(w)
    ensures Inv(Run(w, actions))
    decreases |actions|
  {
    if actions != [] {
      RunKeepsInv(w, actions[..|actions| - 1]);
      StepKeepsInv(Run(w, actions[..|actions| - 1]), actions[|actions| - 1]);
    }
  }

  /** No key ever signs two different things under one sequence number, whatever crashes. */
  lemma NoSequenceReuse(w: World, actions: seq<Action>, d: Envelope, e: Envelope)
    requires Initial(w)
    requires d in Run(w, actions).sent && e in Run(w, actions).sent
    requires d.signature.key == e.signature.key && d.sequence == e.sequence
    ensures d == e
  {
    RunKeepsInv(w, actions);
    var v := Run(w, actions);
    assert Exists(v, d) && Exists(v, e);
  }

  /** Replays and reordering never make the published view of an enrolment go back. */
  lemma PublishedNeverGoesBack(w: World, actions: seq<Action>)
    requires Initial(w)
    ensures Ordered(Run(w, actions).published)
  {
    RunKeepsInv(w, actions);
  }

  /** Whatever was published was sent, unaltered, by the agent that owned the enrolled key. */
  lemma PublishedIsGenuine(w: World, actions: seq<Action>, i: nat)
    requires Initial(w) && i < |Run(w, actions).published|
    ensures var p := Run(w, actions).published[i];
            exists s :: s in Run(w, actions).sent && s.signature.key == p.key && s.feeder == p.feeder
                        && s.sequence == p.envelope.sequence && s.payload == p.envelope.payload
  {
    RunKeepsInv(w, actions);
    var v := Run(w, actions);
    var p := v.published[i];
    assert PublicationInv(v, p);
    var s :| s in v.sent && s.signature == p.envelope.signature;
    assert Exists(v, s);
    assert EnvelopeInv(v, s);
  }

  /** Only a crash or an acknowledgement clears a pending envelope. */
  lemma PendingIsKept(w: World, a: Action, c: ClientId)
    requires c in w.agents && w.agents[c].pending.Some?
    ensures c in Next(w, a).agents
    ensures Next(w, a).agents[c].pending != w.agents[c].pending ==> a == Crash(c) || w.agents[c].pending.value in w.acks
  {
    hide Process, Unforged, Redeemable, TokensRevoked, SignEnvelope;
  }

  /** An agent drops its pending envelope only in a crash or once the envelope was published. */
  lemma AcknowledgedWasPublished(w: World, actions: seq<Action>, a: Action, c: ClientId)
    requires Initial(w)
    requires var v := Run(w, actions); c in v.agents && v.agents[c].pending.Some?
    requires var v := Run(w, actions); Next(v, a).agents[c].pending != v.agents[c].pending
    ensures var v := Run(w, actions);
            a == Crash(c) || WasPublished(v, v.agents[c].pending.value)
  {
    hide Run, Next, Initial, AgentSide, PublicationInv, Ordered, WasPublished;
    RunKeepsInv(w, actions);
    PendingIsKept(Run(w, actions), a, c);
  }

  // ---------- what is sent gets through ----------

  /** A pending envelope is its agent's own and the newest of its key. */
  ghost predicate PendingInv(w: World, c: ClientId)
    requires c in w.agents
  {
    w.agents[c].pending.Some? ==>
      var p := w.agents[c].pending.value;
      && p.signature.key in w.owner && w.owner[p.signature.key] == c
      && forall e :: Exists(w, e) && e.signature.key == p.signature.key ==> e.sequence <= p.sequence
  }

  predicate MarkedBy(row: Row, f: FeederId, s: Envelope) {
    && row.key == Some(s.signature.key) && s.feeder == f
    && row.lastSequence == s.sequence && row.lastPayload == Some(s.payload)
  }

  /** The mark of an enrolled row was set by an envelope posted under the row's key. */
  ghost predicate MarkInv(w: World, f: FeederId)
    requires f in w.rows
  {
    w.rows[f].key.None? || w.rows[f].lastSequence == 0 || exists s :: s in w.sent && MarkedBy(w.rows[f], f, s)
  }

  ghost predicate Flowing(w: World) {
    && (forall c :: c in w.agents ==> PendingInv(w, c))
    && (forall f :: f in w.rows ==> MarkInv(w, f))
  }

  lemma MarkFrame(w: World, a: Action, f: FeederId)
    requires !a.Deliver? && f in Next(w, a).rows
    ensures f in w.rows && w.sent <= Next(w, a).sent
    ensures var before, after := w.rows[f], Next(w, a).rows[f];
            || after.key.None? || after.lastSequence == 0
            || after.(enabled := before.enabled) == before
  {
    hide Redeemable, Prepare, TokensRevoked;
  }

  /** A delivery that moves the mark moves it to an envelope that was posted. */
  lemma DeliveryMark(w: World, a: Action)
    requires a.Deliver? && a.envelope.feeder in w.rows
    ensures var f := a.envelope.feeder;
            Next(w, a).rows[f] != w.rows[f] ==>
              && MarkedBy(Next(w, a).rows[f], f, a.envelope) && Unforged(w, a.envelope)
              && w.rows[f].key == Next(w, a).rows[f].key
              && a.envelope.signature == Seal(a.envelope.signature.key, a.envelope.version, f, a.envelope.sequence,
                                              a.envelope.sentAt, a.envelope.payload)
  {
    hide Unforged, Addressable, ValidPayload;
  }

  lemma DeliverKeepsMark(w: World, a: Action, f: FeederId)
    requires Inv(w) && a.Deliver? && f in w.rows && MarkInv(w, f)
    ensures f in Next(w, a).rows && MarkInv(Next(w, a), f)
  {
    hide Next, WellFormed, AgentInv, NoReuse, PublicationInv, Ordered, WasPublished;
    DeliverFrame(w, a);
    if f == a.envelope.feeder {
      DeliveryMark(w, a);
      if Next(w, a).rows[f] != w.rows[f] {
        var s :| s in w.sent && s.signature == a.envelope.signature;
        assert Exists(w, s) && EnvelopeInv(w, s);
        assert MarkedBy(Next(w, a).rows[f], f, s);
      }
    }
  }

  lemma StepKeepsMark(w: World, a: Action, f: FeederId)
    requires Inv(w) && f in Next(w, a).rows && (f in w.rows ==> MarkInv(w, f))
    ensures MarkInv(Next(w, a), f)
  {
    hide Next, Inv;
    if a.Deliver? {
      DeliverFrame(w, a);
      DeliverKeepsMark(w, a, f);
    } else {
      MarkFrame(w, a, f);
      if w.rows[f].key.Some? && w.rows[f].lastSequence != 0 {
        var s :| s in w.sent && MarkedBy(w.rows[f], f, s);
        var after := Next(w, a).rows[f];
        assert after.key.None? || after.lastSequence == 0 || MarkedBy(after, f, s);
      }
    }
  }

  lemma PendingFrame(w: World, a: Action, c: ClientId)
    requires c in Next(w, a).agents
    ensures c in w.agents
    ensures forall k :: k in w.owner ==> k in Next(w, a).owner && Next(w, a).owner[k] == w.owner[k]
    ensures var before, after := w.agents[c].pending, Next(w, a).agents[c].pending;
            after == before || after.None? || (a.PrepareSend? && a.client == c && before.None?)
  {
    hide Redeemable, TokensRevoked, Process, Unforged, SignEnvelope;
  }

  lemma ExistedBefore(w: World, a: Action, e: Envelope)
    requires !a.PrepareSend? && Exists(Next(w, a), e)
    ensures Exists(w, e)
  {
    hide Redeemable, TokensRevoked, Process, Unforged, Prepare;
    var v := Next(w, a);
    if e !in v.sent {
      var c :| c in v.agents && v.agents[c].pending == Some(e);
      assert w.agents[c].pending == Some(e);
    }
  }

  /** The envelope a step signs, if it signs one, is under its own agent's key and above the others. */
  lemma SignsAbove(w: World, a: Action, e: Envelope)
    requires AgentSide(w) && a.PrepareSend? && a.client in w.agents && Exists(Next(w, a), e)
    ensures a.client in Next(w, a).agents
    ensures var made := Next(w, a).agents[a.client].pending;
            Exists(w, e) ||
            (made == Some(e) && w.agents[a.client].pending.None? && e.signature.key in w.owner && w.owner[e.signature.key] == a.client)
    ensures var made := Next(w, a).agents[a.client].pending;
            made != w.agents[a.client].pending ==>
              && made.Some? && made.value.signature.key in w.owner && w.owner[made.value.signature.key] == a.client
              && (e.signature.key == made.value.signature.key ==> e.sequence <= made.value.sequence)
  {
    hide WellFormed, Addressable, ValidPayload;
    var v := Next(w, a);
    var made := v.agents[a.client].pending;
    assert AgentInv(w, a.client);
    if made == w.agents[a.client].pending {
      NothingNew(w, v, e);
    } else {
      assert Holds(w.agents[a.client], made.value.signature.key);
      if made != Some(e) {
        PrepareIsFresh(w, a, e);
      }
    }
  }

  lemma StepKeepsPending(w: World, a: Action, c: ClientId)
    requires AgentSide(w) && c in Next(w, a).agents && (c in w.agents ==> PendingInv(w, c))
    ensures PendingInv(Next(w, a), c)
  {
    hide Next, AgentSide, Exists;
    PendingFrame(w, a, c);
    var v := Next(w, a);
    if v.agents[c].pending.Some? {
      var p := v.agents[c].pending.value;
      forall e | Exists(v, e) && e.signature.key == p.signature.key
        ensures e.sequence <= p.sequence
      {
        if a.PrepareSend? && a.client in w.agents {
          SignsAbove(w, a, e);
        } else if !a.PrepareSend? {
          ExistedBefore(w, a, e);
        } else {
          PrepareNobody(w, a);
        }
      }
      if a.PrepareSend? && a.client == c && v.agents[c].pending != w.agents[c].pending {
        PendingExists(v, c);
        SignsAbove(w, a, p);
      }
    }
  }

  lemma PrepareNobody(w: World, a: Action)
    requires a.PrepareSend? && a.client !in w.agents
    ensures Next(w, a) == w
  {
  }

  lemma PendingExists(w: World, c: ClientId)
    requires c in w.agents && w.agents[c].pending.Some?
    ensures Exists(w, w.agents[c].pending.value)
  {
  }

  lemma StepKeepsFlowing(w: World, a: Action)
    requires Inv(w) && Flowing(w)
    ensures Flowing(Next(w, a))
  {
    hide Next, PendingInv, MarkInv, AgentSide, ServerSide;
    forall c | c in Next(w, a).agents
      ensures PendingInv(Next(w, a), c)
    {
      StepKeepsPending(w, a, c);
    }
    forall f | f in Next(w, a).rows
      ensures MarkInv(Next(w, a), f)
    {
      StepKeepsMark(w, a, f);
    }
  }

  lemma {:induction false} RunKeepsFlowing(w: World, actions: seq<Action>)
    requires Initial(w)
    ensures Inv(Run(w, actions)) && Flowing(Run(w, actions))
    decreases |actions|
  {
    hide Inv, Next;
    RunKeepsInv(w, actions);
    if actions != [] {
      RunKeepsFlowing(w, actions[..|actions| - 1]);
      StepKeepsFlowing(Run(w, actions[..|actions| - 1]), actions[|actions| - 1]);
    }
  }

  /** The row listens to `e`: it is an agent's, enabled, and enrolled under the key of `e`. */
  predicate ListensTo(w: World, e: Envelope) {
    && e.feeder in w.rows && w.rows[e.feeder].agent && w.rows[e.feeder].enabled
    && w.rows[e.feeder].key == Some(e.signature.key)
  }

  predicate WithinSkew(e: Envelope, now: int) {
    -120_000_000_000 <= e.sentAt - now <= 120_000_000_000
  }

  /** `process` publishes exactly what is signed under the row's key, in time, decodes, is admitted, and
      is above the row's mark or repeats it. */
  lemma PublishedExactly(row: Option<Row>, e: Envelope, now: int, decodes: bool, admitted: bool)
    ensures Process(row, e, now, decodes, admitted).published <==>
      && row.Some? && row.value.enabled && row.value.agent && row.value.key.Some?
      && WellFormed(e) && WithinSkew(e, now)
      && e.signature == Signature(row.value.key.value, e.version, e.feeder, e.sequence, UnixMilli(e.sentAt), e.payload)
      && decodes && admitted
      && (e.sequence > row.value.lastSequence
          || (e.sequence == row.value.lastSequence && row.value.lastPayload == Some(e.payload)))
  {
    hide Addressable;
  }

  lemma DeliveryPublishes(w: World, e: Envelope, now: int, decodes: bool, admitted: bool)
    requires e.feeder in w.rows && Unforged(w, e) && w.rows[e.feeder].key.Some?
    ensures Next(w, Deliver(e, now, decodes, admitted)).published ==
      if Process(Some(w.rows[e.feeder]), e, now, decodes, admitted).published
      then w.published + [Publication(e.feeder, w.rows[e.feeder].key.value, e)] else w.published
  {
    hide Addressable, Unforged, VerifyEnvelope, AcceptSequence;
  }

  /** In every reachable world an envelope posted under the row's key, above the row's mark or the one
      that set it, and delivered in time, is published exactly when it decodes and is admitted. */
  lemma GenuineGetsThrough(w: World, actions: seq<Action>, e: Envelope, now: int, decodes: bool, admitted: bool)
    requires Initial(w) && e in Run(w, actions).sent && ListensTo(Run(w, actions), e) && WithinSkew(e, now)
    requires e.sequence >= Run(w, actions).rows[e.feeder].lastSequence
    ensures Next(Run(w, actions), Deliver(e, now, decodes, admitted)).published ==
      Run(w, actions).published + if decodes && admitted then [Publication(e.feeder, e.signature.key, e)] else []
  {
    hide Run, Next, Process, Initial, WellFormed, AgentInv, ServerSide;
    RunKeepsFlowing(w, actions);
    var v := Run(w, actions);
    assert Exists(v, e) && EnvelopeInv(v, e) && MarkInv(v, e.feeder);
    WellFormedIsPositive(e);
    if e.sequence == v.rows[e.feeder].lastSequence {
      var s :| s in v.sent && MarkedBy(v.rows[e.feeder], e.feeder, s);
      assert Exists(v, s) && s == e;
    }
    PublishedExactly(Some(v.rows[e.feeder]), e, now, decodes, admitted);
    DeliveryPublishes(v, e, now, decodes, admitted);
  }

  lemma WellFormedIsPositive(e: Envelope)
    requires WellFormed(e)
    ensures e.sequence > 0
  {
  }

  lemma PostFrame(w: World, c: ClientId)
    requires c in w.agents && w.agents[c].pending.Some?
    ensures Next(w, Post(c)) == w.(sent := w.sent + {w.agents[c].pending.value})
  {
  }

  /** In every reachable world the pending envelope of an agent whose key the row has gets through when it
      is posted and delivered in time: no earlier crash, loss or replay can have shut it out. */
  lemma PendingGetsThrough(w: World, actions: seq<Action>, c: ClientId, now: int, decodes: bool, admitted: bool)
    requires Initial(w) && c in Run(w, actions).agents && Run(w, actions).agents[c].pending.Some?
    requires var v := Run(w, actions); var e := v.agents[c].pending.value; ListensTo(v, e) && WithinSkew(e, now)
    ensures var v := Run(w, actions); var e := v.agents[c].pending.value;
            Next(Next(v, Post(c)), Deliver(e, now, decodes, admitted)).published ==
              v.published + if decodes && admitted then [Publication(e.feeder, e.signature.key, e)] else []
  {
    hide Run, Next, Initial, Inv, WithinSkew;
    var v := Run(w, actions);
    var e := v.agents[c].pending.value;
    RunKeepsFlowing(w, actions);
    assert PendingInv(v, c);
    MarkBelow(v, e);
    PostFrame(v, c);
    RunOneMore(w, actions, Post(c));
    GenuineGetsThrough(w, actions + [Post(c)], e, now, decodes, admitted);
  }

  /** Nothing above the newest envelope of its key has moved the mark. */
  lemma MarkBelow(w: World, e: Envelope)
    requires Flowing(w) && ListensTo(w, e)
    requires forall d :: Exists(w, d) && d.signature.key == e.signature.key ==> d.sequence <= e.sequence
    ensures w.rows[e.feeder].lastSequence <= e.sequence
  {
    hide PendingInv;
    assert MarkInv(w, e.feeder);
    if w.rows[e.feeder].lastSequence != 0 {
      var s :| s in w.sent && MarkedBy(w.rows[e.feeder], e.feeder, s);
      assert Exists(w, s);
    }
  }

  lemma RunOneMore(w: World, actions: seq<Action>, a: Action)
    ensures Run(w, actions + [a]) == Next(Run(w, actions), a)
  {
    assert (actions + [a])[..|actions|] == actions;
  }

  /** An enrolled agent with nothing pending signs its next number, and it gets through at once: whatever
      was saved and lost before, the numbers the agent skips do not shut it out. */
  lemma NextSendGetsThrough(w: World, actions: seq<Action>, c: ClientId, payload: Payload, now: int, later: int)
    requires Initial(w) && c in Run(w, actions).agents
    requires var v := Run(w, actions); var a := v.agents[c];
             && a.pending.None? && a.credential.Some? && a.credential.value.sequence < 0xFFFF_FFFF_FFFF_FFFF
             && Addressable(a.credential.value.feeder) && 0 < |payload| <= 2_097_152
             && a.credential.value.feeder in v.rows
             && (var row := v.rows[a.credential.value.feeder];
                 row.agent && row.enabled && row.key == Some(a.credential.value.key))
    requires -120_000_000_000 <= now - later <= 120_000_000_000
    ensures var v := Run(w, actions); var k := v.agents[c].credential.value;
            var made := Next(v, PrepareSend(c, payload, now, true)).agents[c].pending;
            && made.Some? && made.value.feeder == k.feeder && made.value.payload == payload
            && made.value.sequence == k.sequence + 1
            && Next(Next(Next(v, PrepareSend(c, payload, now, true)), Post(c)), Deliver(made.value, later, true, true)).published ==
                 v.published + [Publication(k.feeder, k.key, made.value)]
  {
    hide Run, Next, Initial, Addressable;
    var v := Run(w, actions);
    var a := PrepareSend(c, payload, now, true);
    PrepareSigns(v, c, payload, now);
    RunOneMore(w, actions, a);
    PendingGetsThrough(w, actions + [a], c, later, true, true);
  }

  lemma PrepareSigns(w: World, c: ClientId, payload: Payload, now: int)
    requires c in w.agents && w.agents[c].pending.None? && w.agents[c].credential.Some?
    requires w.agents[c].credential.value.sequence < 0xFFFF_FFFF_FFFF_FFFF
    requires Addressable(w.agents[c].credential.value.feeder) && 0 < |payload| <= 2_097_152
    ensures var v := Next(w, PrepareSend(c, payload, now, true)); var k := w.agents[c].credential.value;
            && v.rows == w.rows && v.published == w.published && c in v.agents
            && v.agents[c].pending.Some?
            && (var e := v.agents[c].pending.value;
                e.feeder == k.feeder && e.payload == payload && e.sequence == k.sequence + 1 && e.sentAt == now
                && e.signature.key == k.key)
  {
    hide Addressable;
  }

  /** The server acknowledges an envelope only while the clocks agree. */
  lemma AcknowledgedInTime(w: World, a: Action, e: Envelope)
    requires e in Next(w, a).acks && e !in w.acks
    ensures a.Deliver? && a.envelope == e && WithinSkew(e, a.now)
  {
    hide Addressable, Unforged, Prepare, Redeemable, TokensRevoked, AcceptSequence, Seal;
  }

  /** A pending envelope that is not delivered within the clock skew shuts its agent out: however the run
      goes on, it stays pending, unacknowledged, until the agent restarts. */
  lemma {:induction false} StaleStaysPending(w: World, more: seq<Action>, c: ClientId, e: Envelope)
    requires c in w.agents && w.agents[c].pending == Some(e) && e !in w.acks
    requires forall i :: 0 <= i < |more| ==>
      more[i] != Crash(c) && (more[i].Deliver? ==> more[i].now > e.sentAt + 120_000_000_000)
    ensures var v := Run(w, more); c in v.agents && v.agents[c].pending == Some(e) && e !in v.acks
    decreases |more|
  {
    if more != [] {
      hide Next;
      var n := |more| - 1;
      StaleStaysPending(w, more[..n], c, e);
      var v := Run(w, more[..n]);
      PendingIsKept(v, more[n], c);
      if e in Next(v, more[n]).acks {
        AcknowledgedInTime(v, more[n], e);
      }
    }
  }

  // ---------- across enrolments ----------

  /** What is published for `f` never goes back. */
  ghost predicate NeverBack(published: seq<Publication>, f: FeederId) {
    forall i, j :: 0 <= i < j < |published| && published[i].feeder == published[j].feeder == f ==>
      published[i].envelope.sequence <= published[j].envelope.sequence
  }

  /** Nothing above the first sequence number has been published for `f`. */
  ghost predicate OnlyFirst(w: World, f: FeederId) {
    forall i :: 0 <= i < |w.published| && w.published[i].feeder == f ==> w.published[i].envelope.sequence <= 1
  }

  /** The step enrols `f`: it gives the row a new key. */
  ghost predicate Enrols(w: World, a: Action, f: FeederId) {
    a.Enrol? && Find(Next(w, a).rows, f) != Find(w.rows, f)
  }

  /** Every enrolment of `f` happens while nothing above sequence number 1 has been published for it. */
  ghost predicate EnrolsEarly(w: World, actions: seq<Action>, f: FeederId) {
    forall n :: 0 <= n < |actions| && Enrols(Run(w, actions[..n]), actions[n], f) ==> OnlyFirst(Run(w, actions[..n]), f)
  }

  /** A publication is covered by the row's mark, or nothing newer can be smaller. */
  ghost predicate Covered(w: World, p: Publication) {
    || p.envelope.sequence <= 1
    || (p.feeder in w.rows && (w.rows[p.feeder].key.None? || p.envelope.sequence <= w.rows[p.feeder].lastSequence))
  }

  ghost predicate AllCovered(w: World, f: FeederId) {
    forall i :: 0 <= i < |w.published| && w.published[i].feeder == f ==> Covered(w, w.published[i])
  }

  /** Only enrolment lowers a row's mark while it has a key, and only delivery publishes. */
  lemma MarkMoves(w: World, a: Action, f: FeederId)
    requires f in w.rows && !Enrols(w, a, f)
    ensures f in Next(w, a).rows
    ensures var row := Next(w, a).rows[f];
      row.key.None? || (row.key == w.rows[f].key && w.rows[f].lastSequence <= row.lastSequence)
  {
    hide Process, Redeemable, Prepare, Unforged, TokensRevoked;
    if a.Deliver? && a.envelope.feeder in w.rows {
      DeliveryAdvances(w, a);
    }
  }

  lemma OnlyDeliveryPublishes(w: World, a: Action)
    requires !a.Deliver?
    ensures Next(w, a).published == w.published
  {
    hide Redeemable, Prepare;
  }

  lemma QuietKeepsOrder(w: World, a: Action, f: FeederId)
    requires AllCovered(w, f) && NeverBack(w.published, f) && !a.Deliver? && (Enrols(w, a, f) ==> OnlyFirst(w, f))
    ensures AllCovered(Next(w, a), f) && NeverBack(Next(w, a).published, f)
  {
    hide Next;
    OnlyDeliveryPublishes(w, a);
    forall i | 0 <= i < |w.published| && w.published[i].feeder == f
      ensures Covered(Next(w, a), w.published[i])
    {
      assert Covered(w, w.published[i]);
      if f in w.rows && !Enrols(w, a, f) {
        MarkMoves(w, a, f);
      }
    }
  }

  lemma DeliverKeepsOrder(w: World, a: Action, f: FeederId)
    requires AllCovered(w, f) && NeverBack(w.published, f) && a.Deliver?
    ensures AllCovered(Next(w, a), f) && NeverBack(Next(w, a).published, f)
  {
    var v := Next(w, a);
    if a.envelope.feeder in w.rows {
      DeliveryAdvances(w, a);
      DeliveredIsFirst(w, a);
      DeliverFrame(w, a);
      hide Next;
      forall i | 0 <= i < |v.published| && v.published[i].feeder == f
        ensures Covered(v, v.published[i])
        ensures i < |w.published| && |v.published| > |w.published| && v.published[|w.published|].feeder == f ==>
          v.published[i].envelope.sequence <= v.published[|w.published|].envelope.sequence
      {
        if i < |w.published| {
          assert v.published[i] == w.published[i] && Covered(w, w.published[i]);
        }
      }
    }
  }

  /** Whatever is delivered and published has a sequence number of at least 1, under a key. */
  lemma DeliveredIsFirst(w: World, a: Action)
    requires a.Deliver? && a.envelope.feeder in w.rows
    ensures Next(w, a).published != w.published ==> a.envelope.sequence >= 1 && w.rows[a.envelope.feeder].key.Some?
  {
    hide Unforged, Seal;
  }

  lemma {:induction false} EarlyEnrolmentsKeepOrder(w: World, actions: seq<Action>, f: FeederId)
    requires AllCovered(w, f) && NeverBack(w.published, f) && EnrolsEarly(w, actions, f)
    ensures AllCovered(Run(w, actions), f) && NeverBack(Run(w, actions).published, f)
    decreases |actions|
  {
    if actions != [] {
      hide Next, AllCovered, NeverBack, OnlyFirst, Enrols;
      var n, init := |actions| - 1, actions[..|actions| - 1];
      EarlyPrefix(w, actions, f);
      EarlyEnrolmentsKeepOrder(w, init, f);
      if actions[n].Deliver? {
        DeliverKeepsOrder(Run(w, init), actions[n], f);
      } else {
        QuietKeepsOrder(Run(w, init), actions[n], f);
      }
    }
  }

  lemma EarlyPrefix(w: World, actions: seq<Action>, f: FeederId)
    requires actions != [] && EnrolsEarly(w, actions, f)
    ensures EnrolsEarly(w, actions[..|actions| - 1], f)
  {
    hide Run, Enrols, OnlyFirst;
    var init := actions[..|actions| - 1];
    forall m | 0 <= m < |init| && Enrols(Run(w, init[..m]), init[m], f)
      ensures OnlyFirst(Run(w, init[..m]), f)
    {
      assert init[..m] == actions[..m] && init[m] == actions[m];
    }
  }

  /** What is published for a feeder never goes back in a run that enrols it only while nothing above
      sequence number 1 has been published for it. */
  lemma FeederNeverGoesBack(w: World, actions: seq<Action>, f: FeederId)
    requires Initial(w) && EnrolsEarly(w, actions, f)
    ensures NeverBack(Run(w, actions).published, f)
  {
    hide Run, EnrolsEarly;
    EarlyEnrolmentsKeepOrder(w, actions, f);
  }

  /** However a run goes on that enrols `f` only before anything new is published, what is published
      for `f` does not go back. */
  ghost predicate SafeToEnrol(w: World, f: FeederId) {
    forall more: seq<Action> :: EnrolsNow(w, more, f) ==> NeverBack(Run(w, more).published, f)
  }

  ghost predicate EnrolsNow(w: World, more: seq<Action>, f: FeederId) {
    forall n :: 0 <= n < |more| && Enrols(Run(w, more[..n]), more[n], f) ==> Run(w, more[..n]).published == w.published
  }

  /** The condition is exact: enrolling a feeder, now, keeps its published sequence numbers in order
      if and only if nothing above sequence number 1 has been published for it. */
  lemma EnrolmentIsSafeExactly(w: World, f: FeederId, c: ClientId)
    requires f in w.rows && w.rows[f].agent && Addressable(f) && c in w.agents && NeverBack(w.published, f)
    ensures SafeToEnrol(w, f) <==> OnlyFirst(w, f)
  {
    hide Run, Addressable, NeverBack, Enrols;
    if OnlyFirst(w, f) {
      forall more: seq<Action> | EnrolsNow(w, more, f)
        ensures NeverBack(Run(w, more).published, f)
      {
        EarlyEnrolmentsKeepOrder(w, more, f);
      }
    } else {
      var more := UnsafeEnrolment(w, f, c);
    }
  }

  lemma UnsafeEnrolment(w: World, f: FeederId, c: ClientId) returns (more: seq<Action>)
    requires f in w.rows && w.rows[f].agent && Addressable(f) && c in w.agents && !OnlyFirst(w, f)
    ensures EnrolsNow(w, more, f) && !NeverBack(Run(w, more).published, f)
  {
    hide Run, Addressable, Enrols, Next;
    var t := FreshNat(w.tokens.Keys);
    var k := FreshNat(w.owner.Keys);
    var payload: Payload := [0];
    var e := SignEnvelope(k, f, 1, 0, payload).value;
    CrashClears(w, c);
    var v := Next(w, Crash(c));
    var six := [IssueToken(t, f, 1), Enrol(c, t, k, 0), StoreCredential(c, true), PrepareSend(c, payload, 0, true),
                Post(c),
                Deliver(e, 0, true, true)];
    ReenrolmentStartsOver(v, f, c, t, k, payload, e);
    more := [Crash(c)] + six;
    RunFirst(w, more);
    assert more[1..] == six;
    var i :| 0 <= i < |w.published| && w.published[i].feeder == f && w.published[i].envelope.sequence > 1;
    var all := Run(w, more).published;
    assert all[i] == w.published[i] && all[|w.published|] == Publication(f, k, e);
    forall n | 0 <= n < |more| && Enrols(Run(w, more[..n]), more[n], f)
      ensures Run(w, more[..n]).published == w.published
    {
      OnlySecondEnrols(w, more, n, f);
      RunTwo(w, more);
      OnlyDeliveryPublishes(w, more[0]);
      OnlyDeliveryPublishes(Next(w, more[0]), more[1]);
    }
  }

  lemma OnlySecondEnrols(w: World, more: seq<Action>, n: nat, f: FeederId)
    requires n < |more| && Enrols(Run(w, more[..n]), more[n], f)
    requires |more| == 7 && (forall m :: 0 <= m < 7 && m != 2 ==> !more[m].Enrol?)
    ensures n == 2
  {
    hide Run, Next;
  }

  lemma RunTwo(w: World, a: seq<Action>)
    requires |a| >= 2
    ensures Run(w, a[..2]) == Next(Next(w, a[0]), a[1])
  {
    hide Next;
    assert a[..2][..1] == a[..1] && a[..1][..0] == [];
    assert Run(w, a[..1]) == Next(Run(w, []), a[0]);
  }

  lemma {:induction false} RunFirst(w: World, a: seq<Action>)
    requires a != []
    ensures Run(w, a) == Run(Next(w, a[0]), a[1..])
    decreases |a|
  {
    hide Next;
    var n := |a| - 1;
    if n == 0 {
      assert a[..0] == [] && a[1..] == [];
    } else {
      RunFirst(w, a[..n]);
      assert a[..n][1..] == a[1..][..n - 1];
    }
  }

  lemma CrashClears(w: World, c: ClientId)
    requires c in w.agents
    ensures var v := Next(w, Crash(c));
      && v.rows == w.rows && v.tokens == w.tokens && v.owner == w.owner && v.published == w.published
      && c in v.agents && v.agents[c].pending.None?
  {
  }

  lemma FreshNat(s: set<nat>) returns (n: nat)
    ensures n !in s
  {
    n := 0;
    if s != {} {
      var m: nat := LargestNat(s);
      n := m + 1;
    }
  }

  lemma {:induction false} LargestNat(s: set<nat>) returns (m: nat)
    requires s != {}
    ensures forall x :: x in s ==> x <= m
    decreases |s|
  {
    var x :| x in s;
    m := x;
    if s != {x} {
      var rest := LargestNat(s - {x});
      m := if rest > x then rest else x;
      forall y | y in s
        ensures y <= m
      {
        assert y == x || y in s - {x};
      }
    } else {
      assert forall y :: y in s ==> y == x;
    }
  }

  /** Enrolling a feeder again starts over: from any world, six steps publish sequence number 1. */
  lemma ReenrolmentStartsOver(w: World, f: FeederId, c: ClientId, t: TokenHash, k: Key, payload: Payload, e: Envelope)
    requires f in w.rows && w.rows[f].agent && c in w.agents && w.agents[c].pending.None?
    requires t !in w.tokens && k !in w.owner && ValidPayload(payload) && Addressable(f)
    requires e == SignEnvelope(k, f, 1, 0, payload).value
    ensures Run(w, [IssueToken(t, f, 1), Enrol(c, t, k, 0), StoreCredential(c, true),
                    PrepareSend(c, payload, 0, true), Post(c),
                    Deliver(e, 0, true, true)]).published == w.published + [Publication(f, k, e)]
    ensures e.sequence == 1
  {
    hide Run, Addressable, ValidPayload, Next;
    var a := [IssueToken(t, f, 1), Enrol(c, t, k, 0), StoreCredential(c, true), PrepareSend(c, payload, 0, true),
              Post(c),
              Deliver(e, 0, true, true)];
    RunSix(w, a);
    TakesEnrolment(w, f, c, t, k);
    SendsFirst(Next(Next(Next(w, a[0]), a[1]), a[2]), f, c, k, payload, e);
  }

  /** A new token enrols an agent that is waiting for nothing. */
  lemma TakesEnrolment(w: World, f: FeederId, c: ClientId, t: TokenHash, k: Key)
    requires f in w.rows && c in w.agents && w.agents[c].pending.None? && t !in w.tokens && k !in w.owner
    ensures var v := Next(Next(Next(w, IssueToken(t, f, 1)), Enrol(c, t, k, 0)), StoreCredential(c, true));
      && f in v.rows && v.rows[f] == Enrolled(w.rows[f], k) && v.published == w.published
      && c in v.agents && v.agents[c].credential == Some(Credential(f, k, 0)) && v.agents[c].pending.None?
  {
    hide TokensRevoked, Process, Prepare, Unforged;
  }

  /** A freshly enrolled agent signs, posts and gets published its first envelope. */
  lemma SendsFirst(w: World, f: FeederId, c: ClientId, k: Key, payload: Payload, e: Envelope)
    requires f in w.rows && w.rows[f].agent && w.rows[f].enabled && w.rows[f].key == Some(k)
    requires w.rows[f].lastSequence == 0
    requires c in w.agents && w.agents[c].credential == Some(Credential(f, k, 0)) && w.agents[c].pending.None?
    requires ValidPayload(payload) && Addressable(f) && e == SignEnvelope(k, f, 1, 0, payload).value
    ensures Next(Next(Next(w, PrepareSend(c, payload, 0, true)), Post(c)), Deliver(e, 0, true, true)).published ==
      w.published + [Publication(f, k, e)]
  {
    hide TokensRevoked, Redeemable, Addressable, ValidPayload;
    var v := Next(w, PrepareSend(c, payload, 0, true));
    assert v.agents[c].pending == Some(e);
    var u := Next(v, Post(c));
    assert e in u.sent && Unforged(u, e);
  }

  lemma RunSix(w: World, a: seq<Action>)
    requires |a| == 6
    ensures Run(w, a) == Next(Next(Next(Next(Next(Next(w, a[0]), a[1]), a[2]), a[3]), a[4]), a[5])
  {
    hide Next;
    assert a[..5][..4] == a[..4] && a[..4][..3] == a[..3] && a[..3][..2] == a[..2] && a[..2][..1] == a[..1] && a[..1][..0] == [];
    assert Run(w, a[..1]) == Next(w, a[0]);
    assert Run(w, a[..2]) == Next(Run(w, a[..1]), a[1]);
    assert Run(w, a[..3]) == Next(Run(w, a[..2]), a[2]);
    assert Run(w, a[..4]) == Next(Run(w, a[..3]), a[3]);
    assert Run(w, a[..5]) == Next(Run(w, a[..4]), a[4]);
  }
}
