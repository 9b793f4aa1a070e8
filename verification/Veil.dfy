/** VEIL trust evidence: how records are chained, and how a chain is verified in one pass. */
module Veil {
  import opened Basics
  import Decimal

  datatype Payload = Payload(
    tenant: string, device: string, merchant: string, branch: string, region: string, eventType: string,
    source: string, time: int, context: string, body: string, auditId: string, correlation: string)

  /** The fields the chain hash covers. */
  datatype Seal = Seal(id: string, payloadHash: string, prev: string, signature: string)

  datatype Record = Record(payload: Payload, seal: Seal)

  /** The hashes, as functions of what they cover. */
  datatype Hashes = Hashes(ofPayload: Payload -> string, ofSeal: Seal -> string, sign: (string, string) -> string)

  /** A record belongs to the chain of its device and to the chain of its tenant. */
  datatype Key = Device(id: string) | Tenant(id: string)

  datatype Filter = Filter(
    tenant: string, device: string, merchant: string, branch: string, region: string, eventType: string,
    start: int, end: int)

  predicate Agrees(wanted: string, actual: string) {
    wanted == "" || wanted == actual
  }

  predicate Matches(r: Record, f: Filter) {
    && Agrees(f.tenant, r.payload.tenant) && Agrees(f.device, r.payload.device)
    && Agrees(f.merchant, r.payload.merchant) && Agrees(f.branch, r.payload.branch)
    && Agrees(f.region, r.payload.region) && Agrees(f.eventType, r.payload.eventType)
    && (f.start > 0 ==> f.start <= r.payload.time) && (f.end > 0 ==> r.payload.time <= f.end)
  }

  function Select(log: seq<Record>, f: Filter): seq<Record> {
    if log == [] then []
    else Select(log[..|log| - 1], f) + if Matches(log[|log| - 1], f) then [log[|log| - 1]] else []
  }

  predicate HasKey(r: Record, k: Key) {
    match k
    case Device(id) => r.payload.device == id
    case Tenant(id) => r.payload.tenant == id
  }

  /** The last record of a chain. */
  function Nearest(log: seq<Record>, k: Key): Option<Record> {
    if log == [] then None
    else if HasKey(log[|log| - 1], k) then Some(log[|log| - 1])
    else Nearest(log[..|log| - 1], k)
  }

  function ChainHash(h: Hashes, r: Record): string {
    h.ofSeal(r.seal)
  }

  // ---- Creating evidence

  datatype Store = Store(evidence: seq<Record>, audits: nat)

  function IdFor(prefix: string, n: nat): string {
    prefix + "-" + Decimal.Render(n + 1)
  }

  function LastHash(h: Hashes, log: seq<Record>, k: Key): string {
    var last := Nearest(log, k);
    if last.None? then "" else ChainHash(h, last.value)
  }

  /** The hash a new record is linked to: that of its device's chain, or else of its tenant's. */
  function PreviousFor(h: Hashes, log: seq<Record>, p: Payload): string {
    var ofDevice := if p.device == "" then "" else LastHash(h, log, Device(p.device));
    var ofTenant := if p.tenant == "" then "" else LastHash(h, log, Tenant(p.tenant));
    if ofDevice != "" then ofDevice else ofTenant
  }

  function NewRecord(h: Hashes, st: Store, draft: Payload, id: string): Record {
    var p := if draft.auditId == "" then draft.(auditId := IdFor("trust-audit", st.audits)) else draft;
    var hash := h.ofPayload(p);
    var prev := PreviousFor(h, st.evidence, p);
    Record(p, Seal(if id == "" then IdFor("evidence", |st.evidence|) else id, hash, prev, h.sign(hash, prev)))
  }

  function Created(h: Hashes, st: Store, draft: Payload, id: string): Store {
    Store(st.evidence + [NewRecord(h, st, draft, id)], st.audits + 1)
  }

  // ---- Verifying a chain

  datatype Fault = DuplicateId(id: string) | PayloadTamper(id: string) | MissingLink(id: string) | OutOfOrder(id: string)

  predicate IdIn(id: string, log: seq<Record>) {
    log != [] && (log[|log| - 1].seal.id == id || IdIn(id, log[..|log| - 1]))
  }

  /** What is wrong with a record in one of its chains, given the record before it there. */
  function LinkFaults(h: Hashes, before: Option<Record>, r: Record): seq<Fault> {
    if before.None? then []
    else
      var hash := ChainHash(h, before.value);
      (if hash != "" && r.seal.prev != hash then [MissingLink(r.seal.id)] else []) +
      (if r.payload.time < before.value.payload.time then [OutOfOrder(r.seal.id)] else [])
  }

  function KeysOf(r: Record): seq<Key> {
    (if r.payload.device != "" then [Device(r.payload.device)] else []) +
    (if r.payload.tenant != "" then [Tenant(r.payload.tenant)] else [])
  }

  function KeyFaults(h: Hashes, log: seq<Record>, r: Record, keys: seq<Key>): seq<Fault> {
    if keys == [] then []
    else KeyFaults(h, log, r, keys[..|keys| - 1]) + LinkFaults(h, Nearest(log, keys[|keys| - 1]), r)
  }

  function OwnFaults(h: Hashes, log: seq<Record>, r: Record): seq<Fault> {
    (if IdIn(r.seal.id, log) then [DuplicateId(r.seal.id)] else []) +
    (if h.ofPayload(r.payload) != r.seal.payloadHash then [PayloadTamper(r.seal.id)] else [])
  }

  /** Everything wrong with a sequence of records, each judged against the nearest one before it
      with the same device and with the same tenant. */
  function Faults(h: Hashes, records: seq<Record>): seq<Fault> {
    if records == [] then []
    else
      var front, r := records[..|records| - 1], records[|records| - 1];
      Faults(h, front) + (OwnFaults(h, front, r) + KeyFaults(h, front, r, KeysOf(r)))
  }

  /** The chain as it should be. */
  ghost predicate Intact(h: Hashes, records: seq<Record>) {
    && (forall i, j :: 0 <= i < j < |records| ==> records[i].seal.id != records[j].seal.id)
    && (forall i :: 0 <= i < |records| ==> h.ofPayload(records[i].payload) == records[i].seal.payloadHash)
    && (forall i, k :: 0 <= i < |records| && k in KeysOf(records[i]) ==> LinksBack(h, records, i, k))
  }

  /** The record links to, and is not earlier than, the nearest one before it in the chain. */
  predicate LinksBack(h: Hashes, records: seq<Record>, i: nat, k: Key)
    requires i < |records|
  {
    var before := Nearest(records[..i], k);
    before.Some? ==>
      && (ChainHash(h, before.value) == "" || records[i].seal.prev == ChainHash(h, before.value))
      && before.value.payload.time <= records[i].payload.time
  }

  lemma {:induction false} IdInMeans(id: string, log: seq<Record>)
    ensures IdIn(id, log) <==> exists i :: 0 <= i < |log| && log[i].seal.id == id
  {
    if log != [] {
      IdInMeans(id, log[..|log| - 1]);
      if IdIn(id, log[..|log| - 1]) {
        var i :| 0 <= i < |log| - 1 && log[..|log| - 1][i].seal.id == id;
        assert log[i].seal.id == id;
      }
    }
  }

  lemma NoLinkFaults(h: Hashes, before: Option<Record>, r: Record)
    ensures LinkFaults(h, before, r) == [] <==>
            (before.Some? ==>
               && (ChainHash(h, before.value) == "" || r.seal.prev == ChainHash(h, before.value))
               && before.value.payload.time <= r.payload.time)
  {
  }

  lemma {:induction false} NoKeyFaults(h: Hashes, records: seq<Record>, i: nat, keys: seq<Key>)
    requires i < |records|
    ensures KeyFaults(h, records[..i], records[i], keys) == []
            <==> (forall k :: k in keys ==> LinksBack(h, records, i, k))
  {
    if keys != [] {
      NoKeyFaults(h, records, i, keys[..|keys| - 1]);
      NoLinkFaults(h, Nearest(records[..i], keys[|keys| - 1]), records[i]);
      var a, b := KeyFaults(h, records[..i], records[i], keys[..|keys| - 1]),
        LinkFaults(h, Nearest(records[..i], keys[|keys| - 1]), records[i]);
      assert a + b == [] <==> |a| == 0 && |b| == 0;
      assert forall k :: k in keys <==> k in keys[..|keys| - 1] || k == keys[|keys| - 1];
      assert keys[|keys| - 1] in keys;
    }
  }

  lemma NoOwnFaults(h: Hashes, front: seq<Record>, r: Record)
    ensures OwnFaults(h, front, r) == [] <==>
            (forall i :: 0 <= i < |front| ==> front[i].seal.id != r.seal.id) && h.ofPayload(r.payload) == r.seal.payloadHash
  {
    IdInMeans(r.seal.id, front);
  }

  /** There is nothing to report exactly when the chain is intact. */
  lemma {:induction false} NoFaultsMeansIntact(h: Hashes, records: seq<Record>)
    ensures Faults(h, records) == [] <==> Intact(h, records)
  {
    if records != [] {
      var n := |records| - 1;
      var front, r := records[..n], records[n];
      NoFaultsMeansIntact(h, front);
      NoOwnFaults(h, front, r);
      NoKeyFaults(h, records, n, KeysOf(r));
      IntactSnoc(h, records);
    }
  }

  lemma IntactSnoc(h: Hashes, records: seq<Record>)
    requires records != []
    ensures var n := |records| - 1;
            Intact(h, records) <==>
            && Intact(h, records[..n])
            && (forall i :: 0 <= i < n ==> records[..n][i].seal.id != records[n].seal.id)
            && h.ofPayload(records[n].payload) == records[n].seal.payloadHash
            && (forall k :: k in KeysOf(records[n]) ==> LinksBack(h, records, n, k))
  {
    var n := |records| - 1;
    var front := records[..n];
    forall i, k | 0 <= i < n && k in KeysOf(records[i])
      ensures LinksBack(h, front, i, k) <==> LinksBack(h, records, i, k)
    {
      assert front[..i] == records[..i];
    }
    assert forall i :: 0 <= i < n ==> front[i] == records[i];
  }

  // ---- Logs written by the service

  /** A record to be created: its contents and its id, which may be left to the service. */
  datatype Draft = Draft(payload: Payload, id: string)

  function RunCreates(h: Hashes, drafts: seq<Draft>): Store {
    if drafts == [] then Store([], 0)
    else
      var d := drafts[|drafts| - 1];
      Created(h, RunCreates(h, drafts[..|drafts| - 1]), d.payload, d.id)
  }

  /** Every record carries its payload's hash and the link the service computes. */
  predicate Written(h: Hashes, log: seq<Record>) {
    log == [] ||
    (var front, r := log[..|log| - 1], log[|log| - 1];
     && Written(h, front) && r.seal.payloadHash == h.ofPayload(r.payload)
     && r.seal.prev == PreviousFor(h, front, r.payload))
  }

  lemma {:induction false} CreatesAreWritten(h: Hashes, drafts: seq<Draft>)
    ensures Written(h, RunCreates(h, drafts).evidence)
  {
    if drafts != [] {
      CreatesAreWritten(h, drafts[..|drafts| - 1]);
      var before, d := RunCreates(h, drafts[..|drafts| - 1]), drafts[|drafts| - 1];
      WrittenSnoc(h, before.evidence, NewRecord(h, before, d.payload, d.id));
    }
  }

  lemma WrittenSnoc(h: Hashes, front: seq<Record>, r: Record)
    requires Written(h, front) && r.seal.payloadHash == h.ofPayload(r.payload)
    requires r.seal.prev == PreviousFor(h, front, r.payload)
    ensures Written(h, front + [r])
  {
    assert (front + [r])[..|front + [r]| - 1] == front;
  }

  /** Ids are unique; each device has one tenant, and its times do not decrease. */
  predicate Disciplined(log: seq<Record>) {
    log == [] ||
    (var front, r := log[..|log| - 1], log[|log| - 1];
     && Disciplined(front) && !IdIn(r.seal.id, front)
     && (r.payload.device != "" ==> Follows(Nearest(front, Device(r.payload.device)), r)))
  }

  /** A record of the same tenant, and not earlier. */
  predicate Follows(before: Option<Record>, r: Record) {
    before.None? || (before.value.payload.tenant == r.payload.tenant && before.value.payload.time <= r.payload.time)
  }

  predicate NonEmptyHashes(h: Hashes, log: seq<Record>) {
    log == [] || (NonEmptyHashes(h, log[..|log| - 1]) && ChainHash(h, log[|log| - 1]) != "")
  }

  /** A window of one device's chain: nothing else is filtered on but, perhaps, the tenant. */
  predicate DeviceWindow(f: Filter) {
    f.device != "" && f.merchant == "" && f.branch == "" && f.region == "" && f.eventType == ""
  }

  lemma {:induction false} SelectedIds(log: seq<Record>, f: Filter, id: string)
    ensures IdIn(id, Select(log, f)) ==> IdIn(id, log)
  {
    if log != [] {
      SelectedIds(log[..|log| - 1], f, id);
      var front, r := Select(log[..|log| - 1], f), log[|log| - 1];
      if Matches(r, f) {
        assert (front + [r])[..|front + [r]| - 1] == front;
      } else {
        assert Select(log, f) == front;
      }
    }
  }

  lemma SelectSnoc(log: seq<Record>, f: Filter)
    requires log != []
    ensures var front, r := Select(log[..|log| - 1], f), log[|log| - 1];
            Select(log, f) == if Matches(r, f) then front + [r] else front
  {
  }

  /** The device's newest record. */
  function Newest(log: seq<Record>, f: Filter): Option<Record> {
    Nearest(log, Device(f.device))
  }

  /** What the selection of a device window looks like, next to the whole log: all of it has the
      newest record's tenant, none is later than the newest, and it ends in the newest if that one
      lies in the window. */
  predicate EndsInNewest(log: seq<Record>, f: Filter) {
    var sel, newest := Select(log, f), Newest(log, f);
    sel != [] ==>
      && newest.Some? && newest.value.payload.device == f.device
      && sel[|sel| - 1].payload.device == f.device
      && sel[|sel| - 1].payload.tenant == newest.value.payload.tenant
      && sel[|sel| - 1].payload.time <= newest.value.payload.time
      && (Matches(newest.value, f) ==> sel[|sel| - 1] == newest.value)
      && Matches(sel[|sel| - 1], f)
  }

  lemma {:induction false} SelectionEndsInNewest(log: seq<Record>, f: Filter)
    requires DeviceWindow(f) && Disciplined(log)
    ensures EndsInNewest(log, f)
  {
    if log != [] {
      var front, r := log[..|log| - 1], log[|log| - 1];
      SelectionEndsInNewest(front, f);
      SelectSnoc(log, f);
      NewestSnoc(log, f);
    }
  }

  lemma NewestSnoc(log: seq<Record>, f: Filter)
    requires log != []
    ensures Newest(log, f) == if log[|log| - 1].payload.device == f.device then Some(log[|log| - 1]) else Newest(log[..|log| - 1], f)
  {
  }

  lemma {:induction false} NearestHashed(h: Hashes, log: seq<Record>, k: Key)
    requires NonEmptyHashes(h, log) && Nearest(log, k).Some?
    ensures ChainHash(h, Nearest(log, k).value) != ""
  {
    if !HasKey(log[|log| - 1], k) {
      NearestHashed(h, log[..|log| - 1], k);
    }
  }

  /** All records of a device window have the device, so the nearest in its chain is the last. */
  lemma LastIsNearest(sel: seq<Record>, k: Key)
    requires sel != [] && HasKey(sel[|sel| - 1], k)
    ensures Nearest(sel, k) == Some(sel[|sel| - 1])
  {
  }

  /** A device's next record links to the last record of any of its windows that it falls into. */
  lemma NextLinksToSelection(h: Hashes, front: seq<Record>, r: Record, f: Filter)
    requires DeviceWindow(f) && Disciplined(front) && NonEmptyHashes(h, front)
    requires Matches(r, f) && Follows(Nearest(front, Device(r.payload.device)), r)
    requires r.seal.prev == PreviousFor(h, front, r.payload) && Select(front, f) != []
    ensures var p := Select(front, f)[|Select(front, f)| - 1];
            && r.seal.prev == ChainHash(h, p) && p.payload.time <= r.payload.time
            && p.payload.device == r.payload.device && p.payload.tenant == r.payload.tenant
  {
    SelectionEndsInNewest(front, f);
    NearestHashed(h, front, Device(f.device));
  }

  lemma NextHasNoFaults(h: Hashes, front: seq<Record>, r: Record, f: Filter)
    requires DeviceWindow(f) && Disciplined(front) && NonEmptyHashes(h, front)
    requires Matches(r, f) && Follows(Nearest(front, Device(r.payload.device)), r)
    requires r.seal.prev == PreviousFor(h, front, r.payload)
    ensures KeyFaults(h, Select(front, f), r, KeysOf(r)) == []
  {
    var sel := Select(front, f);
    if sel == [] {
      NoKeysNoFaults(h, r, KeysOf(r));
    } else {
      NextLinksToSelection(h, front, r, f);
      SharedKeys(sel[|sel| - 1], r);
      LinkedHasNoFaults(h, sel, r, KeysOf(r));
    }
  }

  lemma {:induction false} WindowHasNoFaults(h: Hashes, log: seq<Record>, f: Filter)
    requires Written(h, log) && Disciplined(log) && NonEmptyHashes(h, log) && DeviceWindow(f)
    ensures Faults(h, Select(log, f)) == []
  {
    if log != [] {
      var front, r := log[..|log| - 1], log[|log| - 1];
      WindowHasNoFaults(h, front, f);
      SelectSnoc(log, f);
      if Matches(r, f) {
        SelectedIds(front, f, r.seal.id);
        FaultsSnoc(h, Select(front, f), r);
        NextHasNoFaults(h, front, r, f);
      }
    }
  }

  predicate AllHold(p: Record, keys: seq<Key>) {
    keys == [] || (AllHold(p, keys[..|keys| - 1]) && HasKey(p, keys[|keys| - 1]))
  }

  lemma SharedKeys(p: Record, r: Record)
    requires p.payload.device == r.payload.device && p.payload.tenant == r.payload.tenant
    ensures AllHold(p, KeysOf(r))
  {
    var d, t := Device(r.payload.device), Tenant(r.payload.tenant);
    assert [d][..0] == [] && [t][..0] == [] && ([d] + [t])[..1] == [d];
    assert AllHold(p, []);
    assert AllHold(p, [d]) && AllHold(p, [t]) && AllHold(p, [d] + [t]);
  }

  lemma {:induction false} NoKeysNoFaults(h: Hashes, r: Record, keys: seq<Key>)
    ensures KeyFaults(h, [], r, keys) == []
  {
    if keys != [] {
      NoKeysNoFaults(h, r, keys[..|keys| - 1]);
    }
  }

  lemma {:induction false} LinkedHasNoFaults(h: Hashes, sel: seq<Record>, r: Record, keys: seq<Key>)
    requires sel != [] && r.seal.prev == ChainHash(h, sel[|sel| - 1])
    requires sel[|sel| - 1].payload.time <= r.payload.time
    requires AllHold(sel[|sel| - 1], keys)
    ensures KeyFaults(h, sel, r, keys) == []
  {
    if keys != [] {
      LinkedHasNoFaults(h, sel, r, keys[..|keys| - 1]);
      LastIsNearest(sel, keys[|keys| - 1]);
    }
  }

  /** Whatever devices' records are interleaved, every time window of one device's chain in a log
      that the service wrote is intact. */
  lemma EveryDeviceWindowVerifies(h: Hashes, drafts: seq<Draft>, f: Filter)
    requires var log := RunCreates(h, drafts).evidence;
             Disciplined(log) && NonEmptyHashes(h, log) && DeviceWindow(f)
    ensures Intact(h, Select(RunCreates(h, drafts).evidence, f))
  {
    var log := RunCreates(h, drafts).evidence;
    CreatesAreWritten(h, drafts);
    WindowHasNoFaults(h, log, f);
    NoFaultsMeansIntact(h, Select(log, f));
  }

  // ---- Whole tenants

  /** Different records have different hashes. */
  ghost predicate Injective(h: Hashes) {
    && (forall a: Seal, b: Seal :: h.ofSeal(a) == h.ofSeal(b) ==> a == b)
    && (forall a: Payload, b: Payload :: h.ofPayload(a) == h.ofPayload(b) ==> a == b)
  }

  function TenantFilter(tenant: string): Filter {
    Filter(tenant, "", "", "", "", "", 0, 0)
  }

  /** Within the tenant, every record is not earlier than the one before, and is of the same device
      as the one before or of a device that has no record yet, or of none. */
  predicate Uninterleaved(log: seq<Record>, tenant: string) {
    log == [] ||
    (var front, r := log[..|log| - 1], log[|log| - 1];
     && Uninterleaved(front, tenant)
     && (r.payload.tenant == tenant ==> Joins(Nearest(front, Tenant(tenant)), front, r)))
  }

  predicate Joins(before: Option<Record>, front: seq<Record>, r: Record) {
    before.Some? ==>
      && before.value.payload.time <= r.payload.time
      && (r.payload.device == "" || before.value.payload.device == r.payload.device ||
          Nearest(front, Device(r.payload.device)).None?)
  }

  lemma TenantMatches(r: Record, tenant: string)
    requires tenant != ""
    ensures Matches(r, TenantFilter(tenant)) <==> r.payload.tenant == tenant
  {
  }

  /** The nearest record of a chain, if it is the tenant's, is the nearest in the selection. */
  lemma {:induction false} NearestSelected(log: seq<Record>, tenant: string, k: Key)
    requires tenant != ""
    requires Nearest(log, k).Some? ==> Nearest(log, k).value.payload.tenant == tenant
    ensures Nearest(Select(log, TenantFilter(tenant)), k) == Nearest(log, k)
  {
    if log != [] {
      var front, r := log[..|log| - 1], log[|log| - 1];
      TenantMatches(r, tenant);
      SelectSnoc(log, TenantFilter(tenant));
      NearestSnoc(Select(front, TenantFilter(tenant)), r, k);
      if !HasKey(r, k) {
        NearestSelected(front, tenant, k);
      }
    }
  }

  lemma {:induction false} NearestHasKey(log: seq<Record>, k: Key)
    ensures Nearest(log, k).Some? ==> HasKey(Nearest(log, k).value, k)
  {
    if log != [] && !HasKey(log[|log| - 1], k) {
      NearestHasKey(log[..|log| - 1], k);
    }
  }

  /** If the nearest of either chain lies on the other, they are the same. */
  lemma {:induction false} NearestMeet(log: seq<Record>, j: Key, k: Key)
    requires Nearest(log, j).Some? && Nearest(log, k).Some?
    requires HasKey(Nearest(log, j).value, k) && HasKey(Nearest(log, k).value, j)
    ensures Nearest(log, j) == Nearest(log, k)
  {
    if !HasKey(log[|log| - 1], j) && !HasKey(log[|log| - 1], k) {
      NearestMeet(log[..|log| - 1], j, k);
    }
  }

  lemma {:induction false} NearestWritten(h: Hashes, log: seq<Record>, k: Key)
    requires Written(h, log) && Nearest(log, k).Some?
    ensures var r := Nearest(log, k).value; r.seal.payloadHash == h.ofPayload(r.payload)
  {
    if !HasKey(log[|log| - 1], k) {
      NearestWritten(h, log[..|log| - 1], k);
    }
  }

  lemma SameHashSameDevice(h: Hashes, a: Record, b: Record)
    requires Injective(h) && ChainHash(h, a) == ChainHash(h, b)
    requires a.seal.payloadHash == h.ofPayload(a.payload) && b.seal.payloadHash == h.ofPayload(b.payload)
    ensures a.payload == b.payload
  {
  }

  /** The faults of a record of the tenant, one chain at a time. */
  lemma KeyFaultsOf(h: Hashes, sel: seq<Record>, r: Record)
    requires r.payload.tenant != ""
    ensures var ofTenant := LinkFaults(h, Nearest(sel, Tenant(r.payload.tenant)), r);
            KeyFaults(h, sel, r, KeysOf(r)) ==
            if r.payload.device == "" then ofTenant
            else LinkFaults(h, Nearest(sel, Device(r.payload.device)), r) + ofTenant
  {
    var d, t := Device(r.payload.device), Tenant(r.payload.tenant);
    assert [d][..0] == [] && [t][..0] == [] && ([d] + [t])[..1] == [d];
    assert KeyFaults(h, sel, r, [d]) == LinkFaults(h, Nearest(sel, d), r);
    assert KeyFaults(h, sel, r, [t]) == LinkFaults(h, Nearest(sel, t), r);
    assert KeyFaults(h, sel, r, [d] + [t]) == KeyFaults(h, sel, r, [d]) + LinkFaults(h, Nearest(sel, t), r);
  }

  /** The context in which a tenant's next record is judged. */
  predicate Next(h: Hashes, front: seq<Record>, r: Record) {
    && r.payload.tenant != "" && Written(h, front) && NonEmptyHashes(h, front)
    && r.seal.prev == PreviousFor(h, front, r.payload)
    && (r.payload.device != "" ==> Follows(Nearest(front, Device(r.payload.device)), r))
  }

  /** In its device's chain the next record is always right. */
  lemma DeviceLinkIsRight(h: Hashes, front: seq<Record>, r: Record)
    requires Next(h, front, r) && r.payload.device != ""
    ensures LinkFaults(h, Nearest(front, Device(r.payload.device)), r) == []
  {
    if Nearest(front, Device(r.payload.device)).Some? {
      NearestHashed(h, front, Device(r.payload.device));
    }
  }

  /** In its tenant's chain it is right exactly when it joins the record before. */
  lemma TenantLinkIsRightExactly(h: Hashes, front: seq<Record>, r: Record)
    requires Next(h, front, r) && Injective(h)
    ensures LinkFaults(h, Nearest(front, Tenant(r.payload.tenant)), r) == []
            <==> Joins(Nearest(front, Tenant(r.payload.tenant)), front, r)
  {
    var d, t := Device(r.payload.device), Tenant(r.payload.tenant);
    NearestHasKey(front, d);
    NearestHasKey(front, t);
    if Nearest(front, t).Some? {
      NearestHashed(h, front, t);
      if r.payload.device != "" && Nearest(front, d).Some? {
        NearestHashed(h, front, d);
        TwoLinks(h, front, r);
      }
    }
  }

  lemma TwoLinks(h: Hashes, front: seq<Record>, r: Record)
    requires Next(h, front, r) && Injective(h) && r.payload.device != ""
    requires Nearest(front, Device(r.payload.device)).Some? && Nearest(front, Tenant(r.payload.tenant)).Some?
    ensures var q, p := Nearest(front, Device(r.payload.device)).value, Nearest(front, Tenant(r.payload.tenant)).value;
            ChainHash(h, q) == ChainHash(h, p) <==> p.payload.device == r.payload.device
  {
    var d, t := Device(r.payload.device), Tenant(r.payload.tenant);
    NearestHasKey(front, d);
    NearestHasKey(front, t);
    NearestWritten(h, front, d);
    NearestWritten(h, front, t);
    var q, p := Nearest(front, d).value, Nearest(front, t).value;
    if p.payload.device == r.payload.device {
      NearestMeet(front, d, t);
    }
    if ChainHash(h, q) == ChainHash(h, p) {
      SameHashSameDevice(h, q, p);
    }
  }

  lemma TenantStep(h: Hashes, front: seq<Record>, r: Record)
    requires Next(h, front, r) && Injective(h)
    ensures KeyFaults(h, Select(front, TenantFilter(r.payload.tenant)), r, KeysOf(r)) == []
            <==> Joins(Nearest(front, Tenant(r.payload.tenant)), front, r)
  {
    var tenant := r.payload.tenant;
    var sel := Select(front, TenantFilter(tenant));
    NearestHasKey(front, Tenant(tenant));
    NearestSelected(front, tenant, Tenant(tenant));
    KeyFaultsOf(h, sel, r);
    TenantLinkIsRightExactly(h, front, r);
    if r.payload.device != "" {
      NearestSelected(front, tenant, Device(r.payload.device));
      DeviceLinkIsRight(h, front, r);
    }
  }

  lemma {:induction false} TenantFaults(h: Hashes, log: seq<Record>, tenant: string)
    requires Written(h, log) && Disciplined(log) && NonEmptyHashes(h, log) && Injective(h) && tenant != ""
    ensures Faults(h, Select(log, TenantFilter(tenant))) == [] <==> Uninterleaved(log, tenant)
  {
    if log != [] {
      var front, r := log[..|log| - 1], log[|log| - 1];
      TenantFaults(h, front, tenant);
      TenantMatches(r, tenant);
      SelectSnoc(log, TenantFilter(tenant));
      if r.payload.tenant == tenant {
        SelectedIds(front, TenantFilter(tenant), r.seal.id);
        FaultsSnoc(h, Select(front, TenantFilter(tenant)), r);
        TenantStep(h, front, r);
      }
    }
  }

  /** A tenant's whole chain in a log that the service wrote verifies exactly when the records of
      its devices are not interleaved: a second device that already has records breaks it. */
  lemma TenantVerifiesExactly(h: Hashes, drafts: seq<Draft>, tenant: string)
    requires var log := RunCreates(h, drafts).evidence;
             Disciplined(log) && NonEmptyHashes(h, log) && Injective(h) && tenant != ""
    ensures var log := RunCreates(h, drafts).evidence;
            Intact(h, Select(log, TenantFilter(tenant))) <==> Uninterleaved(log, tenant)
  {
    var log := RunCreates(h, drafts).evidence;
    CreatesAreWritten(h, drafts);
    TenantFaults(h, log, tenant);
    NoFaultsMeansIntact(h, Select(log, TenantFilter(tenant)));
  }

  lemma CreatesSnoc(h: Hashes, drafts: seq<Draft>, d: Draft)
    ensures RunCreates(h, drafts + [d]) == Created(h, RunCreates(h, drafts), d.payload, d.id)
  {
    assert (drafts + [d])[..|drafts + [d]| - 1] == drafts;
  }

  lemma DisciplinedSnoc(log: seq<Record>, r: Record)
    requires Disciplined(log) && !IdIn(r.seal.id, log)
    requires r.payload.device != "" ==> Follows(Nearest(log, Device(r.payload.device)), r)
    ensures Disciplined(log + [r])
  {
    assert (log + [r])[..|log + [r]| - 1] == log;
  }

  function Sample(device: string): Payload {
    Payload("t", device, "", "", "", "", "", 0, "", "", "x", "")
  }

  lemma IdsOfThree(a: Record, b: Record, id: string)
    requires a.seal.id != id && b.seal.id != id
    ensures !IdIn(id, []) && !IdIn(id, [a]) && !IdIn(id, [a] + [b])
  {
    assert [a][..0] == [] && ([a] + [b])[..1] == [a];
    assert !IdIn(id, []);
    assert !IdIn(id, [a]);
  }

  lemma NearestOfTwo(a: Record, b: Record, k: Key)
    ensures Nearest([a], k) == (if HasKey(a, k) then Some(a) else None)
    ensures Nearest([a] + [b], k) == if HasKey(b, k) then Some(b) else Nearest([a], k)
  {
    assert [a][..0] == [] && ([a] + [b])[..1] == [a];
    assert Nearest([], k) == None;
  }

  /** Two devices of one tenant that take turns: the tenant's chain does not verify, although every
      record was written by the service and nothing was changed. */
  lemma TurnsBreakTenantChain(h: Hashes, a: Record, b: Record, c: Record)
    requires a.payload == c.payload == Sample("a") && b.payload == Sample("b")
    requires a.seal.id == "1" && b.seal.id == "2" && c.seal.id == "3"
    ensures Disciplined([a] + [b] + [c]) && !Uninterleaved([a] + [b] + [c], "t")
  {
    var log := [a] + [b];
    IdsOfThree(a, b, "3");
    assert !IdIn("1", []);
    assert [a][..0] == [];
    assert !IdIn("2", [a]);
    NearestOfTwo(a, b, Device("a"));
    NearestOfTwo(a, b, Device("b"));
    NearestOfTwo(a, b, Tenant("t"));
    DisciplinedSnoc([], a);
    assert [] + [a] == [a];
    DisciplinedSnoc([a], b);
    DisciplinedSnoc(log, c);
    assert (log + [c])[..|log + [c]| - 1] == log;
  }

  lemma HashedSnoc(h: Hashes, log: seq<Record>, r: Record)
    requires NonEmptyHashes(h, log) && ChainHash(h, r) != ""
    ensures NonEmptyHashes(h, log + [r])
  {
    assert (log + [r])[..|log + [r]| - 1] == log;
  }

  lemma InterleavedTenantFails(h: Hashes) returns (drafts: seq<Draft>)
    requires Injective(h) && forall s: Seal :: h.ofSeal(s) != ""
    ensures Disciplined(RunCreates(h, drafts).evidence)
    ensures !Intact(h, Select(RunCreates(h, drafts).evidence, TenantFilter("t")))
  {
    var d1, d2, d3 := Draft(Sample("a"), "1"), Draft(Sample("b"), "2"), Draft(Sample("a"), "3");
    drafts := [] + [d1] + [d2] + [d3];
    CreatesSnoc(h, [], d1);
    CreatesSnoc(h, [] + [d1], d2);
    CreatesSnoc(h, [] + [d1] + [d2], d3);
    var s0, s1, s2 := RunCreates(h, []), RunCreates(h, [] + [d1]), RunCreates(h, [] + [d1] + [d2]);
    var a, b, c := NewRecord(h, s0, d1.payload, d1.id), NewRecord(h, s1, d2.payload, d2.id), NewRecord(h, s2, d3.payload, d3.id);
    assert s1.evidence == [a];
    assert s2.evidence == [a] + [b];
    assert RunCreates(h, drafts).evidence == [a] + [b] + [c];
    TurnsBreakTenantChain(h, a, b, c);
    HashedSnoc(h, [], a);
    assert [] + [a] == [a];
    HashedSnoc(h, [a], b);
    HashedSnoc(h, [a] + [b], c);
    TenantVerifiesExactly(h, drafts, "t");
  }

  predicate LeavesIds(drafts: seq<Draft>) {
    drafts == [] || (LeavesIds(drafts[..|drafts| - 1]) && drafts[|drafts| - 1].id == "")
  }

  lemma IdForInjective(prefix: string, m: nat, n: nat)
    requires IdFor(prefix, m) == IdFor(prefix, n)
    ensures m == n
  {
    var k := |prefix| + 1;
    assert IdFor(prefix, m)[k..] == Decimal.Render(m + 1);
    assert IdFor(prefix, n)[k..] == Decimal.Render(n + 1);
    Decimal.RenderInjective(m + 1, n + 1);
  }

  lemma {:induction false} CreatesCount(h: Hashes, drafts: seq<Draft>)
    ensures |RunCreates(h, drafts).evidence| == |drafts|
  {
    if drafts != [] {
      CreatesCount(h, drafts[..|drafts| - 1]);
    }
  }

  lemma NewId(h: Hashes, st: Store, p: Payload)
    ensures NewRecord(h, st, p, "").seal.id == IdFor("evidence", |st.evidence|)
  {
  }

  function IdAt(st: Store, i: nat): string {
    if i < |st.evidence| then st.evidence[i].seal.id else ""
  }

  lemma IdAtCreated(h: Hashes, st: Store, p: Payload, i: nat)
    ensures IdAt(Created(h, st, p, ""), i) ==
            if i == |st.evidence| then IdFor("evidence", i) else IdAt(st, i)
  {
    NewId(h, st, p);
  }

  lemma {:induction false} AutomaticIds(h: Hashes, drafts: seq<Draft>, i: nat)
    requires LeavesIds(drafts) && i < |drafts|
    ensures IdAt(RunCreates(h, drafts), i) == IdFor("evidence", i)
  {
    var n := |drafts| - 1;
    CreatesCount(h, drafts[..n]);
    IdAtCreated(h, RunCreates(h, drafts[..n]), drafts[n].payload, i);
    if i < n {
      AutomaticIds(h, drafts[..n], i);
    }
  }

  /** Ids left to the service never collide. */
  lemma AutomaticIdsAreUnique(h: Hashes, drafts: seq<Draft>, i: nat, j: nat)
    requires LeavesIds(drafts) && i < j < |drafts|
    ensures IdAt(RunCreates(h, drafts), i) != IdAt(RunCreates(h, drafts), j)
  {
    AutomaticIds(h, drafts, i);
    AutomaticIds(h, drafts, j);
    if IdFor("evidence", i) == IdFor("evidence", j) {
      IdForInjective("evidence", i, j);
    }
  }

  // ---- What is kept of a draft

  /** The record that belongs to a draft: its payload in every field, with only a missing audit id filled
      in, the id given or the next number, the hash of that payload, and a signature over hash and link. */
  predicate RecordOf(h: Hashes, d: Draft, i: nat, r: Record) {
    && r.payload == Filled(d.payload, i)
    && r.seal.id == (if d.id != "" then d.id else "evidence-" + Decimal.Render(i + 1))
    && r.seal.payloadHash == h.ofPayload(r.payload)
    && r.seal.signature == h.sign(r.seal.payloadHash, r.seal.prev)
  }

  function Filled(p: Payload, i: nat): Payload {
    if p.auditId == "" then p.(auditId := "trust-audit-" + Decimal.Render(i + 1)) else p
  }

  lemma {:induction false} CreatesCountAudits(h: Hashes, drafts: seq<Draft>)
    ensures RunCreates(h, drafts).audits == |drafts|
  {
    if drafts != [] {
      CreatesCountAudits(h, drafts[..|drafts| - 1]);
    }
  }

  lemma NewRecordOf(h: Hashes, st: Store, d: Draft)
    requires st.audits == |st.evidence|
    ensures RecordOf(h, d, |st.evidence|, NewRecord(h, st, d.payload, d.id))
  {
  }

  /** In every store the service has written, record i is that of draft i, and later drafts do not
      touch it. */
  lemma {:induction false} RecordsAsDrafted(h: Hashes, drafts: seq<Draft>, i: nat)
    requires i < |drafts|
    ensures |RunCreates(h, drafts).evidence| == |drafts|
    ensures RecordOf(h, drafts[i], i, RunCreates(h, drafts).evidence[i])
    ensures RunCreates(h, drafts[..i]).evidence <= RunCreates(h, drafts).evidence
  {
    var n := |drafts| - 1;
    CreatesCount(h, drafts);
    CreatesCount(h, drafts[..n]);
    CreatesCountAudits(h, drafts[..n]);
    if i < n {
      RecordsAsDrafted(h, drafts[..n], i);
      assert drafts[..n][..i] == drafts[..i];
    } else {
      NewRecordOf(h, RunCreates(h, drafts[..n]), drafts[n]);
    }
  }

  /** With a collision-free payload hash, stores whose records have the same payload hashes were written
      from the same payloads. */
  lemma {:induction false} HashesTellDrafts(h: Hashes, a: seq<Draft>, b: seq<Draft>)
    requires Injective(h) && |a| == |b|
    requires |RunCreates(h, a).evidence| == |RunCreates(h, b).evidence| == |a|
    requires forall i :: 0 <= i < |a| ==>
               RunCreates(h, a).evidence[i].seal.payloadHash == RunCreates(h, b).evidence[i].seal.payloadHash
    ensures forall i :: 0 <= i < |a| ==> Filled(a[i].payload, i) == Filled(b[i].payload, i)
  {
    forall i | 0 <= i < |a|
      ensures Filled(a[i].payload, i) == Filled(b[i].payload, i)
    {
      RecordsAsDrafted(h, a, i);
      RecordsAsDrafted(h, b, i);
      assert RunCreates(h, a).evidence[i].seal.payloadHash == RunCreates(h, b).evidence[i].seal.payloadHash;
    }
  }

  // ---- What a filter selects and what a fault says

  /** Every criterion that is given holds; times count only when positive, and are inclusive. */
  predicate Wanted(r: Record, f: Filter) {
    && (f.tenant in {"", r.payload.tenant}) && (f.device in {"", r.payload.device})
    && (f.merchant in {"", r.payload.merchant}) && (f.branch in {"", r.payload.branch})
    && (f.region in {"", r.payload.region}) && (f.eventType in {"", r.payload.eventType})
    && (f.start <= 0 || r.payload.time >= f.start) && (f.end <= 0 || r.payload.time <= f.end)
  }

  /** The selection holds the wanted records in their order, and no others. */
  lemma {:induction false} SelectedExactly(log: seq<Record>, f: Filter, i: nat)
    requires i < |log|
    ensures var before := |Select(log[..i], f)|;
            && |Select(log[..i + 1], f)| == before + (if Wanted(log[i], f) then 1 else 0)
            && |Select(log[..i + 1], f)| <= |Select(log, f)|
            && (Wanted(log[i], f) ==> Select(log, f)[before] == log[i])
  {
    var n := |log| - 1;
    if i < n {
      SelectedExactly(log[..n], f, i);
      assert log[..n][..i] == log[..i] && log[..n][..i + 1] == log[..i + 1];
    } else {
      assert log[..i + 1] == log;
    }
  }

  /** Record j is the last one before record i with its device, or the last one with its tenant. */
  predicate JustBefore(records: seq<Record>, j: nat, i: nat)
    requires j < i < |records|
  {
    var p := records[i].payload;
    || (p.device != "" && records[j].payload.device == p.device &&
        forall m :: j < m < i ==> records[m].payload.device != p.device)
    || (p.tenant != "" && records[j].payload.tenant == p.tenant &&
        forall m :: j < m < i ==> records[m].payload.tenant != p.tenant)
  }

  /** The fault is one of record i. */
  predicate FaultAt(h: Hashes, records: seq<Record>, i: nat, fault: Fault)
    requires i < |records|
  {
    var r := records[i];
    && fault.id == r.seal.id
    && match fault
       case DuplicateId(id) => exists j :: 0 <= j < i && records[j].seal.id == id
       case PayloadTamper(_) => h.ofPayload(r.payload) != r.seal.payloadHash
       case MissingLink(_) =>
         exists j :: 0 <= j < i && JustBefore(records, j, i) && h.ofSeal(records[j].seal) !in {"", r.seal.prev}
       case OutOfOrder(_) =>
         exists j :: 0 <= j < i && JustBefore(records, j, i) && r.payload.time < records[j].payload.time
  }

  predicate LastWithKey(log: seq<Record>, j: nat, k: Key)
    requires j < |log|
  {
    HasKey(log[j], k) && forall m :: j < m < |log| ==> !HasKey(log[m], k)
  }

  lemma {:induction false} NearestIsLast(log: seq<Record>, k: Key)
    ensures Nearest(log, k).Some? ==> exists j :: 0 <= j < |log| && LastWithKey(log, j, k) && Nearest(log, k).value == log[j]
    ensures forall j :: 0 <= j < |log| && LastWithKey(log, j, k) ==> Nearest(log, k) == Some(log[j])
  {
    if log != [] && !HasKey(log[|log| - 1], k) {
      var front := log[..|log| - 1];
      NearestIsLast(front, k);
      assert forall j :: 0 <= j < |front| ==> (LastWithKey(front, j, k) <==> LastWithKey(log, j, k));
    } else if log != [] {
      assert LastWithKey(log, |log| - 1, k);
    }
  }

  /** The records just before are the nearest of the chains the record belongs to. */
  lemma JustBeforeIsNearest(records: seq<Record>, j: nat, i: nat)
    requires j < i < |records|
    ensures JustBefore(records, j, i) <==> exists k :: k in KeysOf(records[i]) && LastWithKey(records[..i], j, k)
  {
    var p := records[i].payload;
    var front := records[..i];
    assert forall m :: 0 <= m < i ==> front[m] == records[m];
    if JustBefore(records, j, i) {
      if p.device != "" && records[j].payload.device == p.device &&
         forall m :: j < m < i ==> records[m].payload.device != p.device
      {
        assert Device(p.device) in KeysOf(records[i]) && LastWithKey(front, j, Device(p.device));
      } else {
        assert Tenant(p.tenant) in KeysOf(records[i]) && LastWithKey(front, j, Tenant(p.tenant));
      }
    }
  }

  predicate LinkFaultFor(h: Hashes, before: Option<Record>, r: Record, fault: Fault) {
    before.Some? && fault.id == r.seal.id &&
    ((fault.MissingLink? && ChainHash(h, before.value) !in {"", r.seal.prev}) ||
     (fault.OutOfOrder? && r.payload.time < before.value.payload.time))
  }

  lemma LinkFaultsNamed(h: Hashes, before: Option<Record>, r: Record, fault: Fault)
    ensures fault in LinkFaults(h, before, r) <==> LinkFaultFor(h, before, r, fault)
  {
  }

  lemma {:induction false} KeyFaultsNamed(h: Hashes, log: seq<Record>, r: Record, keys: seq<Key>, fault: Fault)
    ensures fault in KeyFaults(h, log, r, keys) <==> exists k :: k in keys && LinkFaultFor(h, Nearest(log, k), r, fault)
  {
    if keys != [] {
      var front, last := keys[..|keys| - 1], keys[|keys| - 1];
      KeyFaultsNamed(h, log, r, front, fault);
      LinkFaultsNamed(h, Nearest(log, last), r, fault);
      assert last in keys;
      assert forall k :: k in keys <==> k in front || k == last;
      if fault in KeyFaults(h, log, r, front) {
        var k :| k in front && LinkFaultFor(h, Nearest(log, k), r, fault);
        assert k in keys;
      }
    }
  }

  /** A fault in some chain is one against a record just before. */
  lemma {:induction false} ChainFaultAt(h: Hashes, records: seq<Record>, i: nat, fault: Fault)
    requires i < |records| && (fault.MissingLink? || fault.OutOfOrder?)
    ensures FaultAt(h, records, i, fault) <==>
            exists k :: k in KeysOf(records[i]) && LinkFaultFor(h, Nearest(records[..i], k), records[i], fault)
  {
    var front := records[..i];
    if FaultAt(h, records, i, fault) {
      var j :| 0 <= j < i && JustBefore(records, j, i) && LinkFaultFor(h, Some(records[j]), records[i], fault);
      JustBeforeIsNearest(records, j, i);
      var k :| k in KeysOf(records[i]) && LastWithKey(front, j, k);
      NearestIsLast(front, k);
      assert Nearest(front, k) == Some(records[j]);
    }
    forall k | k in KeysOf(records[i]) && LinkFaultFor(h, Nearest(front, k), records[i], fault)
      ensures FaultAt(h, records, i, fault)
    {
      NearestIsLast(front, k);
      var j :| 0 <= j < i && LastWithKey(front, j, k) && Nearest(front, k).value == front[j];
      JustBeforeIsNearest(records, j, i);
    }
  }

  lemma {:induction false} OwnFaultAt(h: Hashes, records: seq<Record>, i: nat, fault: Fault)
    requires i < |records|
    ensures fault in OwnFaults(h, records[..i], records[i]) <==>
            (fault.DuplicateId? || fault.PayloadTamper?) && FaultAt(h, records, i, fault)
  {
    IdInMeans(records[i].seal.id, records[..i]);
    assert forall j :: 0 <= j < i ==> records[..i][j] == records[j];
  }

  lemma {:induction false} LastFaultsNamed(h: Hashes, records: seq<Record>, fault: Fault)
    requires records != []
    ensures var n := |records| - 1;
            fault in OwnFaults(h, records[..n], records[n]) + KeyFaults(h, records[..n], records[n], KeysOf(records[n]))
            <==> FaultAt(h, records, n, fault)
  {
    var n := |records| - 1;
    KeyFaultsNamed(h, records[..n], records[n], KeysOf(records[n]), fault);
    OwnFaultAt(h, records, n, fault);
    if fault.MissingLink? || fault.OutOfOrder? {
      ChainFaultAt(h, records, n, fault);
    }
  }

  ghost predicate SomeFault(h: Hashes, records: seq<Record>, n: nat, fault: Fault)
    requires n <= |records|
  {
    exists i :: 0 <= i < n && FaultAt(h, records, i, fault)
  }

  lemma {:induction false} SomeFaultPrefix(h: Hashes, records: seq<Record>, fault: Fault)
    requires records != []
    ensures var n := |records| - 1;
            SomeFault(h, records[..n], n, fault) <==> SomeFault(h, records, n, fault)
  {
    var n := |records| - 1;
    forall i | 0 <= i < n
      ensures FaultAt(h, records[..n], i, fault) <==> FaultAt(h, records, i, fault)
    {
      FaultAtPrefix(h, records, i, fault);
    }
  }

  lemma SomeFaultSnoc(h: Hashes, records: seq<Record>, n: nat, fault: Fault)
    requires n < |records|
    ensures SomeFault(h, records, n + 1, fault) <==> SomeFault(h, records, n, fault) || FaultAt(h, records, n, fault)
  {
  }

  /** Each fault reported names a record that has it, and each such record is reported: a repeated id, a
      payload that no longer has its hash, a link that does not lead to the record before in a chain, a
      time before that record's. */
  lemma {:induction false} FaultsNamed(h: Hashes, records: seq<Record>, fault: Fault)
    ensures fault in Faults(h, records) <==> SomeFault(h, records, |records|, fault)
  {
    if records != [] {
      var n := |records| - 1;
      FaultsNamed(h, records[..n], fault);
      LastFaultsNamed(h, records, fault);
      SomeFaultPrefix(h, records, fault);
      SomeFaultSnoc(h, records, n, fault);
    }
  }

  lemma {:induction false} FaultAtPrefix(h: Hashes, records: seq<Record>, i: nat, fault: Fault)
    requires i < |records| - 1
    ensures FaultAt(h, records[..|records| - 1], i, fault) <==> FaultAt(h, records, i, fault)
  {
    var front := records[..|records| - 1];
    assert forall j :: 0 <= j <= i ==> front[j] == records[j];
    assert forall j :: 0 <= j < i ==> (JustBefore(front, j, i) <==> JustBefore(records, j, i));
  }

  // ---- What a record is linked to

  /** Record j is the last of the chain before record i, and its hash is this. */
  predicate ChainEndsIn(h: Hashes, log: seq<Record>, i: nat, k: Key, j: nat, hash: string)
    requires j < i < |log|
  {
    k.id != "" && LastWithKey(log[..i], j, k) && h.ofSeal(log[j].seal) == hash != ""
  }

  ghost predicate ChainEnds(h: Hashes, log: seq<Record>, i: nat, k: Key, hash: string)
    requires i < |log|
  {
    exists j :: 0 <= j < i && ChainEndsIn(h, log, i, k, j, hash)
  }

  /** Linked to the hash its device's chain ended in, or if that had none its tenant's, or to nothing. */
  ghost predicate LinkedAt(h: Hashes, log: seq<Record>, i: nat)
    requires i < |log|
  {
    var p, prev := log[i].payload, log[i].seal.prev;
    || ChainEnds(h, log, i, Device(p.device), prev)
    || (&& (forall hash :: !ChainEnds(h, log, i, Device(p.device), hash))
        && (|| ChainEnds(h, log, i, Tenant(p.tenant), prev)
            || (prev == "" && forall hash :: !ChainEnds(h, log, i, Tenant(p.tenant), hash))))
  }

  lemma {:induction false} LastHashEnds(h: Hashes, log: seq<Record>, r: Record, k: Key, hash: string)
    requires k.id != ""
    ensures ChainEnds(h, log + [r], |log|, k, hash) <==> hash == LastHash(h, log, k) != ""
  {
    assert (log + [r])[..|log|] == log;
    NearestIsLast(log, k);
    if hash == LastHash(h, log, k) != "" {
      var j :| 0 <= j < |log| && LastWithKey(log, j, k) && Nearest(log, k).value == log[j];
      assert ChainEndsIn(h, log + [r], |log|, k, j, hash);
    }
  }

  lemma {:induction false} NewRecordLinked(h: Hashes, log: seq<Record>, r: Record)
    requires r.seal.prev == PreviousFor(h, log, r.payload)
    ensures LinkedAt(h, log + [r], |log|)
  {
    var d, t := Device(r.payload.device), Tenant(r.payload.tenant);
    forall hash
      ensures ChainEnds(h, log + [r], |log|, d, hash) <==> d.id != "" && hash == LastHash(h, log, d) != ""
      ensures ChainEnds(h, log + [r], |log|, t, hash) <==> t.id != "" && hash == LastHash(h, log, t) != ""
    {
      if d.id != "" { LastHashEnds(h, log, r, d, hash); }
      if t.id != "" { LastHashEnds(h, log, r, t, hash); }
    }
  }

  lemma {:induction false} ChainEndsPrefix(h: Hashes, log: seq<Record>, n: nat, i: nat, k: Key, hash: string)
    requires i < n <= |log|
    ensures ChainEnds(h, log[..n], i, k, hash) <==> ChainEnds(h, log, i, k, hash)
  {
    assert log[..n][..i] == log[..i];
    assert forall j :: 0 <= j < i ==> (ChainEndsIn(h, log[..n], i, k, j, hash) <==> ChainEndsIn(h, log, i, k, j, hash));
  }

  lemma {:induction false} LinkedAtPrefix(h: Hashes, log: seq<Record>, n: nat, i: nat)
    requires i < n <= |log|
    ensures LinkedAt(h, log[..n], i) <==> LinkedAt(h, log, i)
  {
    forall k, hash
      ensures ChainEnds(h, log[..n], i, k, hash) <==> ChainEnds(h, log, i, k, hash)
    {
      ChainEndsPrefix(h, log, n, i, k, hash);
    }
  }

  /** Every record the service has written is linked to the one before it. */
  lemma {:induction false} EveryRecordIsLinked(h: Hashes, drafts: seq<Draft>, i: nat)
    requires i < |drafts|
    ensures |RunCreates(h, drafts).evidence| == |drafts| && LinkedAt(h, RunCreates(h, drafts).evidence, i)
  {
    var n := |drafts| - 1;
    CreatesCount(h, drafts);
    CreatesCount(h, drafts[..n]);
    var before, log := RunCreates(h, drafts[..n]), RunCreates(h, drafts).evidence;
    assert log[..n] == before.evidence;
    if i < n {
      EveryRecordIsLinked(h, drafts[..n], i);
      LinkedAtPrefix(h, log, n, i);
    } else {
      NewRecordLinked(h, before.evidence, NewRecord(h, before, drafts[n].payload, drafts[n].id));
    }
  }

  // ---- The service

  class Service {
    const h: Hashes
    var evidence: seq<Record>
    var audits: nat

    constructor (h: Hashes)
      ensures this.h == h && View() == Store([], 0)
    {
      this.h, evidence, audits := h, [], 0;
    }

    function View(): Store
      reads this
    {
      Store(evidence, audits)
    }

    /** The newest record of a chain, found from the end. */
    method FindLast(k: Key) returns (hash: string)
      ensures hash == LastHash(h, evidence, k)
    {
      var i := |evidence|;
      assert evidence[..i] == evidence;
      while i > 0
        invariant 0 <= i <= |evidence| && Nearest(evidence, k) == Nearest(evidence[..i], k)
      {
        assert evidence[..i][..i - 1] == evidence[..i - 1];
        i := i - 1;
        if HasKey(evidence[i], k) {
          return ChainHash(h, evidence[i]);
        }
      }
      return "";
    }

    method CreateEvidence(draft: Payload, givenId: string) returns (r: Record)
      modifies this
      ensures View() == Created(h, old(View()), draft, givenId)
      ensures r == NewRecord(h, old(View()), draft, givenId)
    {
      var id, p := givenId, draft;
      if id == "" {
        id := IdFor("evidence", |evidence|);
      }
      if p.auditId == "" {
        p := p.(auditId := IdFor("trust-audit", audits));
      }
      var hash := h.ofPayload(p);
      var ofDevice, ofTenant := "", "";
      if p.device != "" {
        ofDevice := FindLast(Device(p.device));
      }
      if p.tenant != "" {
        ofTenant := FindLast(Tenant(p.tenant));
      }
      var prev := if ofDevice != "" then ofDevice else ofTenant;
      r := Record(p, Seal(id, hash, prev, h.sign(hash, prev)));
      evidence := evidence + [r];
      audits := audits + 1;
    }

    method Filtered(f: Filter) returns (records: seq<Record>)
      ensures records == Select(evidence, f)
    {
      records := [];
      for i := 0 to |evidence|
        invariant records == Select(evidence[..i], f)
      {
        assert evidence[..i + 1][..i] == evidence[..i];
        if Matches(evidence[i], f) {
          records := records + [evidence[i]];
        }
      }
      assert evidence[..|evidence|] == evidence;
    }

    /** One pass over the filtered records: valid exactly when their chain is intact. */
    method VerifyChain(f: Filter) returns (valid: bool, checked: nat, faults: seq<Fault>)
      ensures faults == Faults(h, Select(evidence, f)) && checked == |Select(evidence, f)|
      ensures valid <==> Intact(h, Select(evidence, f))
    {
      var records := Filtered(f);
      valid, faults := Pass(records);
      checked := |records|;
      NoFaultsMeansIntact(h, records);
    }

    method Pass(records: seq<Record>) returns (valid: bool, faults: seq<Fault>)
      ensures faults == Faults(h, records) && (valid <==> faults == [])
    {
      faults := [];
      var ids: set<string>, t := {}, Tables(map[], map[]);
      ghost var front: seq<Record> := [];
      for i := 0 to |records|
        invariant front == records[..i]
        invariant faults == Faults(h, front)
        invariant Prepared(h, front, ids, t)
      {
        var r := records[i];
        var found;
        found, ids, t := CheckRecord(r, ids, t, front);
        FaultsSnoc(h, front, r);
        faults := faults + found;
        front := front + [r];
        assert front == records[..i + 1];
      }
      assert front == records;
      valid := faults == [];
    }

    method CheckRecord(r: Record, ids: set<string>, t: Tables, ghost front: seq<Record>)
      returns (found: seq<Fault>, nextIds: set<string>, next: Tables)
      requires Prepared(h, front, ids, t)
      ensures found == OwnFaults(h, front, r) + KeyFaults(h, front, r, KeysOf(r))
      ensures Prepared(h, front + [r], nextIds, next)
    {
      var own := CheckOwn(r, ids, front);
      KnowsMore(front, r, ids);
      nextIds := ids + {r.seal.id};
      var links;
      links, next := CheckKeys(r, t, front);
      RemembersMore(h, front, r, t, next);
      found := own + links;
    }

    method CheckOwn(r: Record, ids: set<string>, ghost front: seq<Record>) returns (own: seq<Fault>)
      requires KnowsIds(front, ids)
      ensures own == OwnFaults(h, front, r)
    {
      own := [];
      if r.seal.id in ids {
        own := own + [DuplicateId(r.seal.id)];
      }
      if h.ofPayload(r.payload) != r.seal.payloadHash {
        own := own + [PayloadTamper(r.seal.id)];
      }
    }

    method CheckKey(r: Record, k: Key, t: Tables, ghost before: Option<Record>)
      returns (found: seq<Fault>, after: Tables)
      requires Entry(t, k) == EntryFor(h, before)
      ensures found == LinkFaults(h, before, r)
      ensures forall other: Key :: Entry(after, other) == if other == k then EntryFor(h, Some(r)) else Entry(t, other)
    {
      found := [];
      var prev := if k in t.lastHash then t.lastHash[k] else "";
      if prev != "" && r.seal.prev != prev {
        found := found + [MissingLink(r.seal.id)];
      }
      if k in t.lastTime && r.payload.time < t.lastTime[k] {
        found := found + [OutOfOrder(r.seal.id)];
      }
      after := Tables(t.lastHash[k := ChainHash(h, r)], t.lastTime[k := r.payload.time]);
    }

    method CheckKeys(r: Record, t: Tables, ghost front: seq<Record>) returns (found: seq<Fault>, after: Tables)
      requires Remembers(h, front, t)
      ensures found == KeyFaults(h, front, r, KeysOf(r))
      ensures forall k: Key :: Entry(after, k) == if k in KeysOf(r) then EntryFor(h, Some(r)) else Entry(t, k)
    {
      var keys := KeysOf(r);
      found, after := [], t;
      for j := 0 to |keys|
        invariant found == KeyFaults(h, front, r, keys[..j])
        invariant forall k: Key :: Entry(after, k) == if k in keys[..j] then EntryFor(h, Some(r)) else Entry(t, k)
      {
        var k := keys[j];
        assert keys[..j + 1] == keys[..j] + [k] && keys[..j + 1][..j] == keys[..j] && k !in keys[..j];
        assert Entry(after, k) == EntryFor(h, Nearest(front, k));
        var more;
        more, after := CheckKey(r, k, after, Nearest(front, k));
        found := found + more;
      }
      assert keys[..|keys|] == keys;
    }
  }

  /** The verifier's tables hold the last hash and time of every chain that has a name. */
  ghost predicate Remembers(h: Hashes, records: seq<Record>, t: Tables) {
    forall k: Key :: k.id != "" ==> Entry(t, k) == EntryFor(h, Nearest(records, k))
  }

  ghost predicate KnowsIds(records: seq<Record>, ids: set<string>) {
    forall id :: id in ids <==> IdIn(id, records)
  }

  /** All that the verifier needs to know of the records before. */
  ghost predicate Prepared(h: Hashes, records: seq<Record>, ids: set<string>, t: Tables) {
    KnowsIds(records, ids) && Remembers(h, records, t)
  }

  datatype Tables = Tables(lastHash: map<Key, string>, lastTime: map<Key, int>)

  /** What the tables say about a chain. */
  datatype Memory = Memory(hash: Option<string>, time: Option<int>)

  function Entry(t: Tables, k: Key): Memory {
    Memory(if k in t.lastHash then Some(t.lastHash[k]) else None, if k in t.lastTime then Some(t.lastTime[k]) else None)
  }

  function EntryFor(h: Hashes, last: Option<Record>): Memory {
    if last.None? then Memory(None, None) else Memory(Some(ChainHash(h, last.value)), Some(last.value.payload.time))
  }

  lemma NearestSnoc(log: seq<Record>, r: Record, k: Key)
    ensures Nearest(log + [r], k) == if HasKey(r, k) then Some(r) else Nearest(log, k)
  {
    assert (log + [r])[..|log + [r]| - 1] == log;
  }

  lemma KeysOfMeans(r: Record, k: Key)
    requires k.id != ""
    ensures k in KeysOf(r) <==> HasKey(r, k)
  {
  }

  lemma RemembersMore(h: Hashes, front: seq<Record>, r: Record, before: Tables, after: Tables)
    requires Remembers(h, front, before)
    requires forall k: Key :: Entry(after, k) == if k in KeysOf(r) then EntryFor(h, Some(r)) else Entry(before, k)
    ensures Remembers(h, front + [r], after)
  {
    forall k: Key | k.id != ""
      ensures Entry(after, k) == EntryFor(h, Nearest(front + [r], k))
    {
      NearestSnoc(front, r, k);
      KeysOfMeans(r, k);
    }
  }

  lemma FaultsSnoc(h: Hashes, front: seq<Record>, r: Record)
    ensures Faults(h, front + [r]) == Faults(h, front) + (OwnFaults(h, front, r) + KeyFaults(h, front, r, KeysOf(r)))
  {
    assert (front + [r])[..|front + [r]| - 1] == front;
  }

  lemma KnowsMore(front: seq<Record>, r: Record, ids: set<string>)
    requires KnowsIds(front, ids)
    ensures KnowsIds(front + [r], ids + {r.seal.id})
  {
    assert (front + [r])[..|front + [r]| - 1] == front;
  }
}
