/**
 * The measurement driver (src/dns-test.js): nameserver selection, resolv.conf
 * style UDP retransmission, one TCP attempt per nameserver, the response
 * tables written by the drivers and by the UDP receive callback, and the
 * flat report assembled from those tables.
 *
 * The platform, the UDP socket and the DNS codec are not modelled; what they
 * return is given as parameters: a `NameserverSource`, a `UdpStep` per UDP
 * attempt (did the send reject, which datagrams arrived during the sleep), a
 * `TcpPeer` per TCP connection, and the codec's stream encoding.
 */
module DnsTest {
  import opened Wrappers
  import opened JsRuntime
  import opened TcpSocket

  const APEX_DOMAIN_NAME: string := "dnssec-experiment-moz.net"
  const SMIMEA_DOMAIN_NAME: string :=
    "8c6976e5b5410415bde908bd4dee15dfb167a9c873fc4bb8a81f6f2a._smimecert.dnssec-experiment-moz.net"
  const HTTPS_DOMAIN_NAME: string := "_443._tcp.dnssec-experiment-moz.net"

  const RESOLVCONF_ATTEMPTS: nat := 2

  const NO_NAMESERVERS_MESSAGE: string := "No nameservers found"
  const NO_IPV4_MESSAGE: string := "No IPv4 nameservers found"
  const EVENT_KEY: string := "event"
  const REPORT_EVENT: string := "dnsResponses"

  // ---------------------------------------------------------------------------
  // Record types

  datatype RRType = A | RRSIG | DNSKEY | SMIMEA | HTTPS | NEWONE | NEWTWO

  /** `RRTYPES`: the record types probed, in order. */
  const RRTYPES: seq<RRType> := [A, RRSIG, DNSKEY, SMIMEA, HTTPS, NEWONE, NEWTWO]

  /** The record type's name as the source spells it. */
  function Name(rr: RRType): (s: string)
    ensures |s| >= 1
    ensures forall i :: 0 <= i < |s| ==> s[i] != '_'
  {
    match rr
    case A => "A"
    case RRSIG => "RRSIG"
    case DNSKEY => "DNSKEY"
    case SMIMEA => "SMIMEA"
    case HTTPS => "HTTPS"
    case NEWONE => "NEWONE"
    case NEWTWO => "NEWTWO"
  }

  /** The record type a name denotes, if any. */
  function NamedRRType(s: string): Option<RRType>
  {
    if s == "A" then Some(A)
    else if s == "RRSIG" then Some(RRSIG)
    else if s == "DNSKEY" then Some(DNSKEY)
    else if s == "SMIMEA" then Some(SMIMEA)
    else if s == "HTTPS" then Some(HTTPS)
    else if s == "NEWONE" then Some(NEWONE)
    else if s == "NEWTWO" then Some(NEWTWO)
    else None
  }

  /** Every record type is listed in `RRTYPES`, at this position. */
  function IndexOf(rr: RRType): (p: nat)
    ensures p < |RRTYPES| && RRTYPES[p] == rr
  {
    match rr
    case A => 0
    case RRSIG => 1
    case DNSKEY => 2
    case SMIMEA => 3
    case HTTPS => 4
    case NEWONE => 5
    case NEWTWO => 6
  }

  lemma NameRoundTrip(rr: RRType)
    ensures NamedRRType(Name(rr)) == Some(rr)
  {
  }

  /** The record type listed at `p` is found at `p`. */
  lemma IndexOfListed(p: nat)
    requires p < |RRTYPES|
    ensures IndexOf(RRTYPES[p]) == p
  {
    if p == 0 {} else if p == 1 {} else if p == 2 {} else if p == 3 {}
    else if p == 4 {} else if p == 5 {} else {}
  }

  /** No record type is listed twice. */
  lemma RRTypesDistinct()
    ensures forall p :: 0 <= p < |RRTYPES| ==> IndexOf(RRTYPES[p]) == p
  {
    forall p | 0 <= p < |RRTYPES| ensures IndexOf(RRTYPES[p]) == p {
      IndexOfListed(p);
    }
  }

  /** The query name used for a record type in `sendQueries`. */
  function DomainFor(rr: RRType): (d: string)
    ensures (d == SMIMEA_DOMAIN_NAME) <==> rr == SMIMEA
    ensures (d == HTTPS_DOMAIN_NAME) <==> rr == HTTPS
    ensures rr != SMIMEA && rr != HTTPS ==> d == APEX_DOMAIN_NAME
  {
    if rr == SMIMEA then SMIMEA_DOMAIN_NAME
    else if rr == HTTPS then HTTPS_DOMAIN_NAME
    else APEX_DOMAIN_NAME
  }

  // ---------------------------------------------------------------------------
  // isUndefined and arraysMatch

  /** `isUndefined(x)`: `x` is `undefined` or `null`. */
  function IsUndefined<T>(x: JsValue<T>): (r: bool)
    ensures r <==> !x.Value?
  {
    x.Undefined? || x.Null?
  }

  /**
   * `arraysMatch(a, b)`: `a === b` holds for two `undefined`s or two `null`s;
   * two arrays match when they have the same length and the same elements.
   */
  method ArraysMatch(a: JsValue<seq<byte>>, b: JsValue<seq<byte>>) returns (r: bool)
    ensures r <==> (a.Value? && b.Value? && a.value == b.value) || (!a.Value? && a == b)
  {
    if (a.Undefined? && b.Undefined?) || (a.Null? && b.Null?) {
      return true;
    }
    if IsUndefined(a) || IsUndefined(b) {
      return false;
    }
    if |a.value| != |b.value| {
      return false;
    }
    var i := 0;
    while i < |a.value|
      invariant 0 <= i <= |a.value|
      invariant forall j :: 0 <= j < i ==> a.value[j] == b.value[j]
    {
      if a.value[i] != b.value[i] {
        return false;
      }
      i := i + 1;
    }
    return true;
  }

  // ---------------------------------------------------------------------------
  // readNameservers

  /** A promise of the platform that fulfils with a value or rejects with a message. */
  datatype Settled<T> = Threw(message: string) | Returned(value: T)

  /** What a resolv.conf reader fulfils with: an array of entries, or something else. */
  datatype NameserverList = NotAnArray | Entries(items: seq<JsValue<string>>)

  /** `getPlatformInfo()` and the two platform readers. */
  datatype NameserverSource = NameserverSource(
    platform: Settled<string>,
    readMac: Settled<NameserverList>,
    readWin: Settled<NameserverList>)

  /** The list `readNameservers` obtains: the reader for "mac" or "win", an empty array otherwise. */
  function RawNameservers(source: NameserverSource): Settled<NameserverList>
  {
    match source.platform
    case Threw(m) => Threw(m)
    case Returned(os) =>
      if os == "mac" then source.readMac
      else if os == "win" then source.readWin
      else Returned(Entries([]))
  }

  /** An entry kept as an IPv4 resolver: present and containing a ".". */
  predicate LooksIPv4(v: JsValue<string>)
  {
    !IsUndefined(v) && '.' in v.value
  }

  /** The entries kept by `readNameservers`, in their original order. */
  function Ipv4Filter(items: seq<JsValue<string>>): (r: seq<string>)
    ensures |r| <= |items|
    ensures forall i :: 0 <= i < |r| ==> '.' in r[i]
  {
    if items == [] then []
    else
      var last := items[|items| - 1];
      Ipv4Filter(items[..|items| - 1]) + (if LooksIPv4(last) then [last.value] else [])
  }

  /** Filtering a concatenation filters each part: the kept entries keep their order. */
  lemma {:induction false} Ipv4FilterAppend(a: seq<JsValue<string>>, b: seq<JsValue<string>>)
    ensures Ipv4Filter(a + b) == Ipv4Filter(a) + Ipv4Filter(b)
    decreases |b|
  {
    if b == [] {
      assert a + b == a;
    } else {
      var b' := b[..|b| - 1];
      assert (a + b)[..|a + b| - 1] == a + b';
      Ipv4FilterAppend(a, b');
    }
  }

  /** A string is kept exactly when it is a present entry containing ".". */
  lemma {:induction false} Ipv4FilterMembers(items: seq<JsValue<string>>, s: string)
    ensures s in Ipv4Filter(items) <==> Value(s) in items && '.' in s
  {
    if items != [] {
      var pre := items[..|items| - 1];
      Ipv4FilterMembers(pre, s);
      assert items == pre + [items[|items| - 1]];
    }
  }

  /** The outcome of `readNameservers`: the IPv4-looking entries, or the message it throws. */
  function ConfiguredNameservers(source: NameserverSource): (r: Result<seq<string>, string>)
    ensures r.Success? ==> r.value != [] && forall i :: 0 <= i < |r.value| ==> '.' in r.value[i]
    ensures RawNameservers(source).Threw? ==> r == Failure(RawNameservers(source).message)
    ensures RawNameservers(source) == Returned(NotAnArray) ==> r == Failure(NO_NAMESERVERS_MESSAGE)
    ensures RawNameservers(source) == Returned(Entries([])) ==> r == Failure(NO_NAMESERVERS_MESSAGE)
    ensures (RawNameservers(source).Returned? && RawNameservers(source).value.Entries?
             && RawNameservers(source).value.items != []) ==>
      r == if Ipv4Filter(RawNameservers(source).value.items) == [] then Failure(NO_IPV4_MESSAGE)
           else Success(Ipv4Filter(RawNameservers(source).value.items))
  {
    match RawNameservers(source)
    case Threw(m) => Failure(m)
    case Returned(list) =>
      if list.NotAnArray? || |list.items| <= 0 then Failure(NO_NAMESERVERS_MESSAGE)
      else
        var kept := Ipv4Filter(list.items);
        if |kept| <= 0 then Failure(NO_IPV4_MESSAGE) else Success(kept)
  }

  /** The number of entries the reader returned: a bound on the nameservers used. */
  function RawCount(source: NameserverSource): nat
  {
    match RawNameservers(source)
    case Returned(Entries(items)) => |items|
    case _ => 0
  }

  /** `readNameservers`: obtain the platform's list, reject an empty one, keep the IPv4-looking entries. */
  method ReadNameservers(source: NameserverSource) returns (r: Result<seq<string>, string>)
    ensures r == ConfiguredNameservers(source)
    ensures r.Success? ==> |r.value| <= RawCount(source)
  {
    var nameservers: NameserverList := Entries([]);
    match source.platform {
      case Threw(m) =>
        return Failure(m);
      case Returned(os) =>
        if os == "mac" {
          if source.readMac.Threw? {
            return Failure(source.readMac.message);
          }
          nameservers := source.readMac.value;
        } else if os == "win" {
          if source.readWin.Threw? {
            return Failure(source.readWin.message);
          }
          nameservers := source.readWin.value;
        }
    }
    if nameservers.NotAnArray? || |nameservers.items| <= 0 {
      return Failure(NO_NAMESERVERS_MESSAGE);
    }
    var items := nameservers.items;
    var ipv4: seq<string> := [];
    var i := 0;
    while i < |items|
      invariant 0 <= i <= |items|
      invariant ipv4 == Ipv4Filter(items[..i])
    {
      var ns := items[i];
      assert items[..i + 1][..i] == items[..i];
      if !IsUndefined(ns) && '.' in ns.value {
        ipv4 := ipv4 + [ns.value];
      }
      i := i + 1;
    }
    assert items[..i] == items;
    if |ipv4| <= 0 {
      return Failure(NO_IPV4_MESSAGE);
    }
    return Success(ipv4);
  }

  // ---------------------------------------------------------------------------
  // Response tables

  /** One entry of `udpResponses` or `tcpResponses`. */
  datatype Slot = Slot(data: string, transmission: nat)

  /** `udpResponses` or `tcpResponses`: one slot per record type, as the object literals of the source. */
  datatype Table = Table(a: Slot, rrsig: Slot, dnskey: Slot, smimea: Slot, https: Slot, newone: Slot, newtwo: Slot)
  {
    /** The slot of `rr`. */
    function Get(rr: RRType): Slot
    {
      match rr
      case A => a
      case RRSIG => rrsig
      case DNSKEY => dnskey
      case SMIMEA => smimea
      case HTTPS => https
      case NEWONE => newone
      case NEWTWO => newtwo
    }

    /** The table with the slot of `rr` replaced by `s`. */
    function Set(rr: RRType, s: Slot): (t: Table)
      ensures t.Get(rr) == s
      ensures forall x :: x != rr ==> t.Get(x) == Get(x)
    {
      match rr
      case A => this.(a := s)
      case RRSIG => this.(rrsig := s)
      case DNSKEY => this.(dnskey := s)
      case SMIMEA => this.(smimea := s)
      case HTTPS => this.(https := s)
      case NEWONE => this.(newone := s)
      case NEWTWO => this.(newtwo := s)
    }
  }

  /** Both tables start with an empty string and a zero counter in every slot. */
  const EMPTY_SLOT: Slot := Slot("", 0)
  const EMPTY_TABLE: Table := Table(EMPTY_SLOT, EMPTY_SLOT, EMPTY_SLOT, EMPTY_SLOT, EMPTY_SLOT, EMPTY_SLOT, EMPTY_SLOT)

  /** A UDP response for a record type that the receive callback hands over. */
  datatype Datagram = Datagram(rrtype: RRType, bytes: seq<byte>)

  /** The bytes of the last datagram for `rr` in `ds`, if any. */
  function LastFor(ds: seq<Datagram>, rr: RRType): Option<seq<byte>>
  {
    if ds == [] then None
    else if ds[|ds| - 1].rrtype == rr then Some(ds[|ds| - 1].bytes)
    else LastFor(ds[..|ds| - 1], rr)
  }

  /** The effect of `processUDPResponse` on the UDP table. */
  function Receive(m: Table, d: Datagram): (r: Table)
  {
    m.Set(d.rrtype, m.Get(d.rrtype).(data := FromCharCodes(d.bytes)))
  }

  /**
   * The UDP table after the callback has handled `ds` in order: each record
   * type holds the string of its last datagram, and no counter moves.
   */
  function ReceiveAll(m: Table, ds: seq<Datagram>): (r: Table)
  {
    if ds == [] then m else Receive(ReceiveAll(m, ds[..|ds| - 1]), ds[|ds| - 1])
  }

  /** The callback moves no counter. */
  lemma {:induction false} ReceiveAllCounters(m: Table, ds: seq<Datagram>)
    ensures forall rr :: ReceiveAll(m, ds).Get(rr).transmission == m.Get(rr).transmission
  {
    if ds != [] {
      ReceiveAllCounters(m, ds[..|ds| - 1]);
    }
  }

  /**
   * After the callback has handled `ds` in order, each record type holds the
   * string of its last datagram, or what it held before.
   */
  lemma {:induction false} ReceiveAllData(m: Table, ds: seq<Datagram>, rr: RRType)
    ensures ReceiveAll(m, ds).Get(rr).data == match LastFor(ds, rr) {
                                           case Some(b) => FromCharCodes(b)
                                           case None => m.Get(rr).data
                                         }
  {
    if ds != [] {
      ReceiveAllData(m, ds[..|ds| - 1], rr);
    }
  }

  /** One more attempt counted for `rr`. */
  function Bump(m: Table, rr: RRType): (r: Table)
  {
    m.Set(rr, m.Get(rr).(transmission := m.Get(rr).transmission + 1))
  }

  // ---------------------------------------------------------------------------
  // sendUDPQuery

  /**
   * One UDP attempt as the environment plays it: the send rejects with a
   * message, or it goes out and these datagrams reach the callback before the
   * driver looks at the table again.
   */
  datatype UdpStep = Sent(received: seq<Datagram>) | SendFailed(message: string)

  /** A datagram the driver sends, or a connection it opens: the nameserver and the question. */
  datatype Transmission = Transmission(nameserver: string, domain: string, rrtype: RRType)

  /** The first `count` datagrams of a UDP run: each nameserver in turn, once per attempt. */
  function UdpTransmissions(nameservers: seq<string>, domain: string, rr: RRType, count: nat): (r: seq<Transmission>)
    requires count <= RESOLVCONF_ATTEMPTS * |nameservers|
    ensures |r| == count
  {
    seq(count, k requires 0 <= k < count => Transmission(nameservers[k / RESOLVCONF_ATTEMPTS], domain, rr))
  }

  /** After the attempts at nameserver `i`, the run continues with nameserver `i + 1`. */
  lemma NextNameserver(i: nat, n: nat)
    requires i < n
    ensures i * RESOLVCONF_ATTEMPTS + RESOLVCONF_ATTEMPTS == (i + 1) * RESOLVCONF_ATTEMPTS
    ensures (i + 1) * RESOLVCONF_ATTEMPTS <= RESOLVCONF_ATTEMPTS * n
  {
  }

  /** Attempt `j` at nameserver `i`, the `k`-th of the run, sends to nameserver `i`. */
  lemma UdpTransmissionsStep(nameservers: seq<string>, domain: string, rr: RRType, i: nat, j: nat, k: nat)
    requires i < |nameservers| && j < RESOLVCONF_ATTEMPTS && k == i * RESOLVCONF_ATTEMPTS + j
    ensures k < RESOLVCONF_ATTEMPTS * |nameservers|
    ensures UdpTransmissions(nameservers, domain, rr, k + 1)
         == UdpTransmissions(nameservers, domain, rr, k) + [Transmission(nameservers[i], domain, rr)]
  {
    assert k / RESOLVCONF_ATTEMPTS == i;
  }

  /** The first `count` connections of a TCP run: one per nameserver, in order. */
  function TcpTransmissions(nameservers: seq<string>, domain: string, rr: RRType, count: nat): (r: seq<Transmission>)
    requires count <= |nameservers|
    ensures |r| == count
    ensures forall j :: 0 <= j < count ==> r[j] == Transmission(nameservers[j], domain, rr)
  {
    if count == 0 then [] else TcpTransmissions(nameservers, domain, rr, count - 1) + [Transmission(nameservers[count - 1], domain, rr)]
  }

  datatype UdpRun = UdpRun(table: Table, attempts: nat, error: Option<string>)

  /** The UDP table after one attempt: the attempt is counted, then the datagrams of a send that went out arrive. */
  function Attempt(m: Table, rr: RRType, step: UdpStep): Table
  {
    match step
    case SendFailed(_) => Bump(m, rr)
    case Sent(received) => ReceiveAll(Bump(m, rr), received)
  }

  /** The UDP table after attempts `b` up to `e` of `steps`, in order. */
  function Replay(m: Table, rr: RRType, steps: seq<UdpStep>, b: nat, e: nat): Table
    requires b <= e <= |steps|
    decreases e - b
  {
    if e == b then m else Attempt(Replay(m, rr, steps, b, e - 1), rr, steps[e - 1])
  }

  /** The sends of attempts `b` up to `e` all went out. */
  predicate AllSent(steps: seq<UdpStep>, b: nat, e: nat)
    requires b <= e <= |steps|
    decreases e - b
  {
    e == b || (steps[e - 1].Sent? && AllSent(steps, b, e - 1))
  }

  /**
   * The retransmission loop from attempt `k` of `total`: count the attempt,
   * send, let the datagrams arrive, and stop once the slot holds data.
   */
  function UdpFrom(m: Table, rr: RRType, steps: seq<UdpStep>, k: nat, total: nat): (r: UdpRun)
    requires k <= total <= |steps|
    decreases total - k
  {
    if k == total then UdpRun(m, k, None)
    else
      match steps[k]
      case SendFailed(msg) => UdpRun(Bump(m, rr), k + 1, Some(msg))
      case Sent(received) =>
        var after := ReceiveAll(Bump(m, rr), received);
        if after.Get(rr).data != "" then UdpRun(after, k + 1, None)
        else UdpFrom(after, rr, steps, k + 1, total)
  }

  /** A UDP run makes at least one attempt when any is due, and at most all of them. */
  lemma {:induction false} UdpFromAttempts(m: Table, rr: RRType, steps: seq<UdpStep>, k: nat, total: nat)
    requires k <= total <= |steps|
    ensures k <= UdpFrom(m, rr, steps, k, total).attempts <= total
    ensures k < total ==> k < UdpFrom(m, rr, steps, k, total).attempts
    decreases total - k
  {
    if k < total && steps[k].Sent? {
      var after := ReceiveAll(Bump(m, rr), steps[k].received);
      if after.Get(rr).data == "" {
        UdpFromAttempts(after, rr, steps, k + 1, total);
      }
    }
  }

  /** Every attempt of a UDP run is counted once in the record type's slot. */
  lemma {:induction false} UdpFromCounter(m: Table, rr: RRType, steps: seq<UdpStep>, k: nat, total: nat)
    requires k <= total <= |steps|
    ensures UdpFrom(m, rr, steps, k, total).table.Get(rr).transmission
         == m.Get(rr).transmission + (UdpFrom(m, rr, steps, k, total).attempts - k)
    decreases total - k
  {
    if k < total && steps[k].Sent? {
      var after := ReceiveAll(Bump(m, rr), steps[k].received);
      ReceiveAllCounters(Bump(m, rr), steps[k].received);
      if after.Get(rr).data == "" {
        UdpFromCounter(after, rr, steps, k + 1, total);
      }
    }
  }

  /** A UDP run leaves the counters of the other record types alone. */
  lemma {:induction false} UdpFromOtherCounters(m: Table, rr: RRType, steps: seq<UdpStep>, k: nat, total: nat, x: RRType)
    requires k <= total <= |steps| && x != rr
    ensures UdpFrom(m, rr, steps, k, total).table.Get(x).transmission == m.Get(x).transmission
    decreases total - k
  {
    if k < total && steps[k].Sent? {
      var after := ReceiveAll(Bump(m, rr), steps[k].received);
      ReceiveAllCounters(Bump(m, rr), steps[k].received);
      if after.Get(rr).data == "" {
        UdpFromOtherCounters(after, rr, steps, k + 1, total, x);
      }
    }
  }

  /** A UDP run stops before its last attempt only on a send error or once the slot holds data. */
  lemma {:induction false} UdpFromStopsEarly(m: Table, rr: RRType, steps: seq<UdpStep>, k: nat, total: nat)
    requires k <= total <= |steps|
    ensures var r := UdpFrom(m, rr, steps, k, total);
      r.attempts < total ==> r.error.Some? || r.table.Get(rr).data != ""
    decreases total - k
  {
    if k < total && steps[k].Sent? {
      var after := ReceiveAll(Bump(m, rr), steps[k].received);
      if after.Get(rr).data == "" {
        UdpFromStopsEarly(after, rr, steps, k + 1, total);
      }
    }
  }

  /** The send of an attempt goes out and no datagram for `rr` among those that arrive carries bytes. */
  predicate QuietStep(step: UdpStep, rr: RRType)
  {
    step.Sent? && forall d :: d in step.received && d.rrtype == rr ==> d.bytes == []
  }

  /** Every attempt from `k` to `total` is quiet for `rr`. */
  ghost predicate Silent(steps: seq<UdpStep>, rr: RRType, k: nat, total: nat)
    requires k <= total <= |steps|
  {
    forall a :: k <= a < total ==> QuietStep(steps[a], rr)
  }

  /**
   * With no response, the driver makes every attempt: `RESOLVCONF_ATTEMPTS`
   * for each nameserver, the counter grows by that many and the data stays empty.
   */
  lemma {:induction false} UdpUnansweredExhausts(m: Table, rr: RRType, steps: seq<UdpStep>, k: nat, total: nat)
    requires k <= total <= |steps|
    requires m.Get(rr).data == "" && Silent(steps, rr, k, total)
    ensures UdpFrom(m, rr, steps, k, total).attempts == total
    ensures UdpFrom(m, rr, steps, k, total).error == None
    ensures UdpFrom(m, rr, steps, k, total).table.Get(rr) == Slot("", m.Get(rr).transmission + (total - k))
    decreases total - k
  {
    if k < total {
      assert QuietStep(steps[k], rr);
      var after := ReceiveAll(Bump(m, rr), steps[k].received);
      QuietAttempt(m, rr, steps[k]);
      assert Silent(steps, rr, k + 1, total);
      UdpUnansweredExhausts(after, rr, steps, k + 1, total);
    }
  }

  /** A quiet attempt counts itself and leaves the data empty. */
  lemma QuietAttempt(m: Table, rr: RRType, step: UdpStep)
    requires m.Get(rr).data == "" && QuietStep(step, rr)
    ensures ReceiveAll(Bump(m, rr), step.received).Get(rr) == Slot("", m.Get(rr).transmission + 1)
  {
    LastForSilent(step.received, rr);
    ReceiveAllCounters(Bump(m, rr), step.received);
    ReceiveAllData(Bump(m, rr), step.received, rr);
    FromCharCodesEmpty([]);
  }

  lemma {:induction false} LastForSilent(ds: seq<Datagram>, rr: RRType)
    requires forall d :: d in ds && d.rrtype == rr ==> d.bytes == []
    ensures LastFor(ds, rr).Some? ==> LastFor(ds, rr).value == []
  {
    if ds != [] && ds[|ds| - 1].rrtype != rr {
      var pre := ds[..|ds| - 1];
      assert forall d :: d in pre ==> d in ds;
      LastForSilent(pre, rr);
    }
  }

  /** A reply for `rr` among the datagrams of attempt `k` ends the loop right after that attempt. */
  lemma UdpAnsweredStops(m: Table, rr: RRType, steps: seq<UdpStep>, k: nat, total: nat)
    requires k < total <= |steps|
    requires steps[k].Sent? && LastFor(steps[k].received, rr).Some?
    requires LastFor(steps[k].received, rr).value != []
    ensures UdpFrom(m, rr, steps, k, total).attempts == k + 1
    ensures UdpFrom(m, rr, steps, k, total).table.Get(rr) ==
      Slot(FromCharCodes(LastFor(steps[k].received, rr).value), m.Get(rr).transmission + 1)
  {
    FromCharCodesEmpty(LastFor(steps[k].received, rr).value);
    ReceiveAllCounters(Bump(m, rr), steps[k].received);
    ReceiveAllData(Bump(m, rr), steps[k].received, rr);
  }

  // ---------------------------------------------------------------------------
  // sendTCPQuery

  /** A reply that makes `sendTCPQuery` move on: bytes whose string is empty. */
  predicate Unanswered(r: QueryResult)
  {
    r.Answer? && r.bytes == []
  }

  /** What each of the first `n` connections of a TCP run ends with. */
  function TcpReplies(buf: seq<byte>, peers: seq<TcpPeer>, n: nat): (r: seq<QueryResult>)
    requires n <= |peers|
    ensures |r| == n
  {
    if n == 0 then [] else TcpReplies(buf, peers, n - 1) + [QueryOutcome(buf, peers[n - 1])]
  }

  /** Connection `k` ends as the query over its peer does. */
  lemma {:induction false} TcpRepliesAt(buf: seq<byte>, peers: seq<TcpPeer>, n: nat, k: nat)
    requires k < n <= |peers|
    ensures TcpReplies(buf, peers, n)[k] == QueryOutcome(buf, peers[k])
  {
    if k < n - 1 {
      TcpRepliesAt(buf, peers, n - 1, k);
    }
  }

  /** The first connection from `from` on whose reply is not empty, or `|replies|`. */
  function FirstSettled(replies: seq<QueryResult>, from: nat): (k: nat)
    requires from <= |replies|
    ensures from <= k <= |replies|
    ensures k < |replies| ==> !Unanswered(replies[k])
    decreases |replies| - from
  {
    if from == |replies| || !Unanswered(replies[from]) then from
    else FirstSettled(replies, from + 1)
  }

  /** Every connection before the first settled one came back empty. */
  lemma {:induction false} FirstSettledSkipsUnanswered(replies: seq<QueryResult>, from: nat)
    requires from <= |replies|
    ensures forall j :: from <= j < FirstSettled(replies, from) ==> Unanswered(replies[j])
    decreases |replies| - from
  {
    if from < |replies| && Unanswered(replies[from]) {
      FirstSettledSkipsUnanswered(replies, from + 1);
    }
  }

  /** How a driver call ends: it returns, it throws (aborting the run), or it never returns. */
  datatype DriverOutcome = Completed | Aborted(message: string) | Stalled

  function AfterQuery(r: QueryResult): DriverOutcome
  {
    match r
    case Answer(_) => Completed
    case Raised(m) => Aborted(m)
    case Hung => Stalled
  }

  datatype TcpRun = TcpRun(slot: Slot, attempts: nat, outcome: DriverOutcome)

  /**
   * The TCP loop from connection `k` on, connection `j` ending with
   * `replies[j]`: count the attempt, and move on only while the reply is empty.
   */
  function TcpFrom(slot: Slot, replies: seq<QueryResult>, k: nat): TcpRun
    requires k <= |replies|
    decreases |replies| - k
  {
    if k == |replies| then TcpRun(slot, k, Completed)
    else
      var counted := slot.(transmission := slot.transmission + 1);
      match replies[k]
      case Raised(m) => TcpRun(counted, k + 1, Aborted(m))
      case Hung => TcpRun(counted, k + 1, Stalled)
      case Answer(bytes) =>
        if bytes == [] then TcpFrom(counted, replies, k + 1)
        else TcpRun(counted.(data := FromCharCodes(bytes)), k + 1, Completed)
  }

  /**
   * The TCP loop stops at the first connection whose reply is not empty: it
   * has tried every nameserver up to that one, counted each attempt, stored a
   * non-empty reply and ended as that connection ended; when every reply is
   * empty it tries them all and the data stays as it was.
   */
  lemma {:induction false} TcpFromSettles(slot: Slot, replies: seq<QueryResult>, k: nat)
    requires k <= |replies|
    ensures var run := TcpFrom(slot, replies, k);
      var s := FirstSettled(replies, k);
      var reply := if s < |replies| then replies[s] else Answer([]);
      && run.attempts == (if s < |replies| then s + 1 else |replies|)
      && run.slot.transmission == slot.transmission + (run.attempts - k)
      && run.slot.data == (if reply.Answer? && reply.bytes != [] then FromCharCodes(reply.bytes) else slot.data)
      && run.outcome == AfterQuery(reply)
    decreases |replies| - k
  {
    if k < |replies| {
      var counted := slot.(transmission := slot.transmission + 1);
      if Unanswered(replies[k]) {
        TcpFromSettles(counted, replies, k + 1);
      }
    }
  }

  // ---------------------------------------------------------------------------
  // The report

  /** The four report fields of one record type. */
  datatype Field = UdpData | UdpTransmission | TcpData | TcpTransmission

  function Suffix(f: Field): (s: string)
    ensures |s| >= 9 && s[0] == '_'
  {
    match f
    case UdpData => "_udp_data"
    case UdpTransmission => "_udp_transmission"
    case TcpData => "_tcp_data"
    case TcpTransmission => "_tcp_transmission"
  }

  /** The report key of a field: `<rr>_udp_data` and so on. */
  function ReportKey(rr: RRType, f: Field): string
  {
    Name(rr) + Suffix(f)
  }

  /** Different record types or fields never share a report key, and none is `event`. */
  lemma ReportKeyInjective(r1: RRType, f1: Field, r2: RRType, f2: Field)
    ensures ReportKey(r1, f1) != EVENT_KEY
    ensures ReportKey(r1, f1) == ReportKey(r2, f2) ==> r1 == r2 && f1 == f2
  {
    var key := ReportKey(r1, f1);
    if key == ReportKey(r2, f2) {
      var n1, n2 := Name(r1), Name(r2);
      assert |n1| == |n2|;
      assert n1 == key[..|n1|] == n2;
      NameRoundTrip(r1);
      NameRoundTrip(r2);
      assert Suffix(f1) == key[|n1|..] == Suffix(f2);
    }
  }

  /** The value the report holds for a field. */
  function FieldValue(udp: Table, tcp: Table, rr: RRType, f: Field): string
  {
    match f
    case UdpData => udp.Get(rr).data
    case UdpTransmission => NatToString(udp.Get(rr).transmission)
    case TcpData => tcp.Get(rr).data
    case TcpTransmission => NatToString(tcp.Get(rr).transmission)
  }

  /**
   * The payload `sendQueries` builds: the key `event`, and for every record
   * type its two data strings and its two counters in decimal.
   */
  ghost predicate IsReport(payload: map<string, string>, udp: Table, tcp: Table)
  {
    && (forall key :: key in payload <==> key == EVENT_KEY || exists rr, f :: key == ReportKey(rr, f))
    && EVENT_KEY in payload && payload[EVENT_KEY] == REPORT_EVENT
    && forall rr, f :: ReportKey(rr, f) in payload && payload[ReportKey(rr, f)] == FieldValue(udp, tcp, rr, f)
  }

  /** The four keys of a record type. */
  function RecordKeys(rr: RRType): set<string>
  {
    {ReportKey(rr, UdpData), ReportKey(rr, UdpTransmission), ReportKey(rr, TcpData), ReportKey(rr, TcpTransmission)}
  }

  /** One pass of the report loop: the four fields of `rr` are written into `m`. */
  function AddRecord(m: map<string, string>, udp: Table, tcp: Table, rr: RRType): map<string, string>
  {
    m[ReportKey(rr, UdpData) := udp.Get(rr).data]
     [ReportKey(rr, UdpTransmission) := NatToString(udp.Get(rr).transmission)]
     [ReportKey(rr, TcpData) := tcp.Get(rr).data]
     [ReportKey(rr, TcpTransmission) := NatToString(tcp.Get(rr).transmission)]
  }

  /** A pass adds the four keys of `rr` and no other. */
  lemma AddRecordKeys(m: map<string, string>, udp: Table, tcp: Table, rr: RRType)
    ensures forall key :: key in AddRecord(m, udp, tcp, rr) <==> key in m || key in RecordKeys(rr)
  {
  }

  /** A pass writes each field value of `rr` under its own key. */
  lemma AddRecordValues(m: map<string, string>, udp: Table, tcp: Table, rr: RRType)
    ensures forall f :: ReportKey(rr, f) in AddRecord(m, udp, tcp, rr)
    ensures forall f :: AddRecord(m, udp, tcp, rr)[ReportKey(rr, f)] == FieldValue(udp, tcp, rr, f)
  {
    ReportKeyInjective(rr, UdpData, rr, UdpTransmission);
    ReportKeyInjective(rr, UdpData, rr, TcpData);
    ReportKeyInjective(rr, UdpData, rr, TcpTransmission);
    ReportKeyInjective(rr, UdpTransmission, rr, TcpData);
    ReportKeyInjective(rr, UdpTransmission, rr, TcpTransmission);
    ReportKeyInjective(rr, TcpData, rr, TcpTransmission);
  }

  /** A pass keeps every entry outside the four keys of `rr`. */
  lemma AddRecordKeeps(m: map<string, string>, udp: Table, tcp: Table, rr: RRType)
    ensures forall key :: key in m ==> key in AddRecord(m, udp, tcp, rr)
    ensures forall key :: key in m && key !in RecordKeys(rr) ==> AddRecord(m, udp, tcp, rr)[key] == m[key]
  {
  }

  /** The payload once the report loop has handled the first `i` record types. */
  function ReportUpTo(udp: Table, tcp: Table, i: nat): map<string, string>
    requires i <= |RRTYPES|
  {
    if i == 0 then map[EVENT_KEY := REPORT_EVENT]
    else AddRecord(ReportUpTo(udp, tcp, i - 1), udp, tcp, RRTYPES[i - 1])
  }

  /** A field key belongs to the four keys of `owner` exactly when it is a key of `owner`. */
  lemma RecordKeyOwner(rr: RRType, f: Field, owner: RRType)
    ensures ReportKey(rr, f) in RecordKeys(owner) <==> rr == owner
    ensures ReportKey(rr, f) != EVENT_KEY
  {
    ReportKeyInjective(rr, f, owner, UdpData);
    ReportKeyInjective(rr, f, owner, UdpTransmission);
    ReportKeyInjective(rr, f, owner, TcpData);
    ReportKeyInjective(rr, f, owner, TcpTransmission);
    if rr == owner {
      match f
      case UdpData =>
      case UdpTransmission =>
      case TcpData =>
      case TcpTransmission =>
    }
  }

  /** Each of the four keys of `owner` names one of its fields. */
  lemma RecordKeyField(key: string, owner: RRType)
    requires key in RecordKeys(owner)
    ensures exists f :: key == ReportKey(owner, f)
    ensures key != EVENT_KEY
  {
    if key == ReportKey(owner, UdpData) {
      RecordKeyOwner(owner, UdpData, owner);
    } else if key == ReportKey(owner, UdpTransmission) {
      RecordKeyOwner(owner, UdpTransmission, owner);
    } else if key == ReportKey(owner, TcpData) {
      RecordKeyOwner(owner, TcpData, owner);
    } else {
      RecordKeyOwner(owner, TcpTransmission, owner);
    }
  }

  /** After `i` passes the payload holds `event` and the four keys of each record type handled, and nothing else. */
  lemma {:induction false} ReportUpToKeys(udp: Table, tcp: Table, i: nat)
    requires i <= |RRTYPES|
    ensures forall key :: key in ReportUpTo(udp, tcp, i) <==>
      key == EVENT_KEY || exists rr, f :: IndexOf(rr) < i && key == ReportKey(rr, f)
  {
    if i > 0 {
      var prior := ReportUpTo(udp, tcp, i - 1);
      var next := RRTYPES[i - 1];
      ReportUpToKeys(udp, tcp, i - 1);
      AddRecordKeys(prior, udp, tcp, next);
      IndexOfListed(i - 1);
      forall key ensures key in ReportUpTo(udp, tcp, i) <==>
        key == EVENT_KEY || exists rr, f :: IndexOf(rr) < i && key == ReportKey(rr, f)
      {
        if key in RecordKeys(next) {
          RecordKeyField(key, next);
        }
        if exists rr, f :: IndexOf(rr) < i && key == ReportKey(rr, f) {
          var rr, f :| IndexOf(rr) < i && key == ReportKey(rr, f);
          RecordKeyOwner(rr, f, next);
          assert IndexOf(rr) == i - 1 ==> rr == next;
        }
      }
    }
  }

  /** `event` is none of the four keys of `rr`. */
  lemma EventNotRecordKey(rr: RRType)
    ensures EVENT_KEY !in RecordKeys(rr)
  {
    ReportKeyInjective(rr, UdpData, rr, UdpData);
    ReportKeyInjective(rr, UdpTransmission, rr, UdpTransmission);
    ReportKeyInjective(rr, TcpData, rr, TcpData);
    ReportKeyInjective(rr, TcpTransmission, rr, TcpTransmission);
  }

  /** After `i` passes `event` still holds its value. */
  lemma {:induction false} ReportUpToEvent(udp: Table, tcp: Table, i: nat)
    requires i <= |RRTYPES|
    ensures EVENT_KEY in ReportUpTo(udp, tcp, i) && ReportUpTo(udp, tcp, i)[EVENT_KEY] == REPORT_EVENT
  {
    if i > 0 {
      var next := RRTYPES[i - 1];
      ReportUpToEvent(udp, tcp, i - 1);
      AddRecordKeeps(ReportUpTo(udp, tcp, i - 1), udp, tcp, next);
      EventNotRecordKey(next);
    }
  }

  /** After `i` passes each key of the record types handled holds its value. */
  lemma {:induction false} ReportUpToValues(udp: Table, tcp: Table, i: nat)
    requires i <= |RRTYPES|
    ensures forall rr, f :: IndexOf(rr) < i ==>
      ReportKey(rr, f) in ReportUpTo(udp, tcp, i)
      && ReportUpTo(udp, tcp, i)[ReportKey(rr, f)] == FieldValue(udp, tcp, rr, f)
  {
    if i > 0 {
      var prior := ReportUpTo(udp, tcp, i - 1);
      var next := RRTYPES[i - 1];
      ReportUpToValues(udp, tcp, i - 1);
      AddRecordValues(prior, udp, tcp, next);
      AddRecordKeeps(prior, udp, tcp, next);
      IndexOfListed(i - 1);
      forall rr, f | IndexOf(rr) < i
        ensures ReportKey(rr, f) in ReportUpTo(udp, tcp, i)
             && ReportUpTo(udp, tcp, i)[ReportKey(rr, f)] == FieldValue(udp, tcp, rr, f)
      {
        RecordKeyOwner(rr, f, next);
        assert IndexOf(rr) == i - 1 ==> rr == next;
      }
    }
  }

  /** The completed loop yields the report. */
  lemma ReportUpToIsReport(udp: Table, tcp: Table)
    ensures IsReport(ReportUpTo(udp, tcp, |RRTYPES|), udp, tcp)
  {
    ReportUpToKeys(udp, tcp, |RRTYPES|);
    ReportUpToEvent(udp, tcp, |RRTYPES|);
    ReportUpToValues(udp, tcp, |RRTYPES|);
  }

  // ---------------------------------------------------------------------------
  // The orchestrator

  /** A driver invocation of `sendQueries`, with the query it was given. */
  datatype DriverCall = UdpQuery(domain: string, rrtype: RRType) | TcpQuery(domain: string, rrtype: RRType)

  /** The two driver calls the loop of `sendQueries` makes for `rr`, with its domain. */
  function PlannedPass(rr: RRType): seq<DriverCall>
  {
    [UdpQuery(DomainFor(rr), rr), TcpQuery(DomainFor(rr), rr)]
  }

  /** The driver calls of a full run from record type `i` on: UDP then TCP for each, in order. */
  function PlanFrom(i: nat): seq<DriverCall>
    requires i <= |RRTYPES|
    decreases |RRTYPES| - i
  {
    if i == |RRTYPES| then [] else PlannedPass(RRTYPES[i]) + PlanFrom(i + 1)
  }

  /** A prefix stays a prefix when the same calls come before both. */
  lemma PrefixAfter(a: seq<DriverCall>, b: seq<DriverCall>, c: seq<DriverCall>)
    requires b <= c
    ensures a + b <= a + c
  {
    assert (a + c)[..|a + b|] == a + c[..|b|];
  }

  /** A prefix of `b` is a prefix of anything `b` starts. */
  lemma PrefixBefore(a: seq<DriverCall>, b: seq<DriverCall>, c: seq<DriverCall>)
    requires a <= b
    ensures a <= b + c
  {
    assert (b + c)[..|a|] == b[..|a|];
  }

  /** What the network does during a run, per record type, and the stream encoder of the codec. */
  datatype Environment = Environment(
    udpSteps: RRType -> seq<UdpStep>,
    tcpPhaseDatagrams: RRType -> seq<Datagram>,
    tcpPeers: RRType -> seq<TcpPeer>,
    streamEncode: (string, RRType) -> seq<byte>)

  /** The environment has a UDP step for every attempt and a connection for every nameserver. */
  ghost predicate Covers(env: Environment, n: nat)
  {
    forall rr: RRType :: |env.udpSteps(rr)| >= RESOLVCONF_ATTEMPTS * n && |env.tcpPeers(rr)| >= n
  }

  datatype RunOutcome = Reported(payload: map<string, string>) | RunAborted(message: string) | RunStalled

  function AtLeastOne(n: nat): nat
  {
    if n > 0 then 1 else 0
  }

  /** A run of the environment with fewer nameservers is covered as well. */
  lemma CoversFewer(env: Environment, n: nat, m: nat)
    requires Covers(env, n) && m <= n
    ensures Covers(env, m)
  {
  }

  /** The tables, the driver calls and how the last call ended. */
  datatype Run = Run(udp: Table, tcp: Table, calls: seq<DriverCall>, outcome: DriverOutcome)

  /**
   * One pass of the loop of `sendQueries` for `rr`: the UDP driver, then
   * (unless it threw) the TCP driver and the datagrams that arrive meanwhile.
   */
  function RecordStep(udp: Table, tcp: Table, nameservers: seq<string>, env: Environment, rr: RRType): (r: Run)
    requires Covers(env, |nameservers|)
  {
    var domain := DomainFor(rr);
    var u := UdpFrom(udp, rr, env.udpSteps(rr), 0, RESOLVCONF_ATTEMPTS * |nameservers|);
    if u.error.Some? then Run(u.table, tcp, [UdpQuery(domain, rr)], Aborted(u.error.value))
    else
      var t := TcpFrom(tcp.Get(rr), TcpReplies(env.streamEncode(domain, rr), env.tcpPeers(rr), |nameservers|), 0);
      Run(ReceiveAll(u.table, env.tcpPhaseDatagrams(rr)), tcp.Set(rr, t.slot),
          [UdpQuery(domain, rr), TcpQuery(domain, rr)], t.outcome)
  }

  /** The loop of `sendQueries` from record type `i` on; a driver that throws or never returns ends it. */
  function QueriesFrom(udp: Table, tcp: Table, nameservers: seq<string>, env: Environment, i: nat): (r: Run)
    requires i <= |RRTYPES| && Covers(env, |nameservers|)
    decreases |RRTYPES| - i
  {
    if i == |RRTYPES| then Run(udp, tcp, [], Completed)
    else
      var step := RecordStep(udp, tcp, nameservers, env, RRTYPES[i]);
      if !step.outcome.Completed? then step
      else
        var rest := QueriesFrom(step.udp, step.tcp, nameservers, env, i + 1);
        Run(rest.udp, rest.tcp, step.calls + rest.calls, rest.outcome)
  }

  /** A pass issues the UDP call for `rr`, then the TCP call unless the UDP driver threw. */
  lemma RecordStepCalls(udp: Table, tcp: Table, nameservers: seq<string>, env: Environment, rr: RRType)
    requires Covers(env, |nameservers|)
    ensures var step := RecordStep(udp, tcp, nameservers, env, rr);
      && (step.calls == [UdpQuery(DomainFor(rr), rr)] || step.calls == PlannedPass(rr))
      && (step.outcome.Completed? ==> step.calls == PlannedPass(rr))
  {
  }

  /** A pass moves the UDP counter of its record type by at least one attempt and at most all of them. */
  lemma RecordStepUdpCounter(udp: Table, tcp: Table, nameservers: seq<string>, env: Environment, rr: RRType)
    requires Covers(env, |nameservers|)
    ensures var after := RecordStep(udp, tcp, nameservers, env, rr).udp.Get(rr).transmission;
      var before := udp.Get(rr).transmission;
      before + AtLeastOne(|nameservers|) <= after <= before + RESOLVCONF_ATTEMPTS * |nameservers|
  {
    var total := RESOLVCONF_ATTEMPTS * |nameservers|;
    var u := UdpFrom(udp, rr, env.udpSteps(rr), 0, total);
    UdpFromAttempts(udp, rr, env.udpSteps(rr), 0, total);
    UdpFromCounter(udp, rr, env.udpSteps(rr), 0, total);
    ReceiveAllCounters(u.table, env.tcpPhaseDatagrams(rr));
  }

  /** A pass for `next` leaves the UDP counters of the other record types alone. */
  lemma RecordStepOtherUdpCounter(udp: Table, tcp: Table, nameservers: seq<string>, env: Environment, next: RRType, rr: RRType)
    requires Covers(env, |nameservers|) && rr != next
    ensures RecordStep(udp, tcp, nameservers, env, next).udp.Get(rr).transmission == udp.Get(rr).transmission
  {
    var total := RESOLVCONF_ATTEMPTS * |nameservers|;
    var u := UdpFrom(udp, next, env.udpSteps(next), 0, total);
    UdpFromOtherCounters(udp, next, env.udpSteps(next), 0, total, rr);
    ReceiveAllCounters(u.table, env.tcpPhaseDatagrams(next));
  }

  /** A pass moves only the TCP counter of `rr`, and only when its TCP driver is called. */
  lemma RecordStepTcpCounter(udp: Table, tcp: Table, nameservers: seq<string>, env: Environment, next: RRType, rr: RRType)
    requires Covers(env, |nameservers|)
    ensures var step := RecordStep(udp, tcp, nameservers, env, next);
      var before := tcp.Get(rr).transmission;
      if rr == next && |step.calls| == 2 then
        before + AtLeastOne(|nameservers|) <= step.tcp.Get(rr).transmission <= before + |nameservers|
      else step.tcp.Get(rr).transmission == before
  {
    var domain := DomainFor(next);
    var buf := env.streamEncode(domain, next);
    TcpFromSettles(tcp.Get(next), TcpReplies(buf, env.tcpPeers(next), |nameservers|), 0);
  }

  /**
   * The calls of a run follow the plan (UDP then TCP, record type by record
   * type, each with its domain), and the run completes only after all of them.
   */
  lemma {:induction false} QueriesFromCalls(udp: Table, tcp: Table, nameservers: seq<string>, env: Environment, i: nat)
    requires i <= |RRTYPES| && Covers(env, |nameservers|)
    ensures var run := QueriesFrom(udp, tcp, nameservers, env, i);
      && run.calls <= PlanFrom(i)
      && (run.outcome.Completed? ==> run.calls == PlanFrom(i))
    decreases |RRTYPES| - i
  {
    if i < |RRTYPES| {
      var step := RecordStep(udp, tcp, nameservers, env, RRTYPES[i]);
      RecordStepCalls(udp, tcp, nameservers, env, RRTYPES[i]);
      if step.outcome.Completed? {
        var rest := QueriesFrom(step.udp, step.tcp, nameservers, env, i + 1);
        QueriesFromCalls(step.udp, step.tcp, nameservers, env, i + 1);
        PrefixAfter(step.calls, rest.calls, PlanFrom(i + 1));
      } else {
        PrefixBefore(step.calls, PlannedPass(RRTYPES[i]), PlanFrom(i + 1));
      }
    }
  }

  /** A run from record type `i` issues no call for a record type handled before `i`. */
  lemma {:induction false} QueriesFromLater(udp: Table, tcp: Table, nameservers: seq<string>, env: Environment, i: nat)
    requires i <= |RRTYPES| && Covers(env, |nameservers|)
    ensures forall c :: c in QueriesFrom(udp, tcp, nameservers, env, i).calls ==> i <= IndexOf(c.rrtype)
    decreases |RRTYPES| - i
  {
    if i < |RRTYPES| {
      var step := RecordStep(udp, tcp, nameservers, env, RRTYPES[i]);
      RecordStepCalls(udp, tcp, nameservers, env, RRTYPES[i]);
      IndexOfListed(i);
      if step.outcome.Completed? {
        QueriesFromLater(step.udp, step.tcp, nameservers, env, i + 1);
      }
    }
  }

  /**
   * A record type's UDP counter moves only when its UDP driver is called, and
   * then by at least one attempt (given a nameserver) and at most all of them.
   */
  lemma {:induction false} QueriesFromUdpCounter(udp: Table, tcp: Table, nameservers: seq<string>, env: Environment,
                                                 i: nat, rr: RRType, run: Run)
    requires i <= |RRTYPES| && Covers(env, |nameservers|)
    requires run == QueriesFrom(udp, tcp, nameservers, env, i)
    ensures var before := udp.Get(rr).transmission;
      if UdpQuery(DomainFor(rr), rr) in run.calls then
        before + AtLeastOne(|nameservers|) <= run.udp.Get(rr).transmission
        <= before + RESOLVCONF_ATTEMPTS * |nameservers|
      else run.udp.Get(rr).transmission == before
    decreases |RRTYPES| - i
  {
    if i < |RRTYPES| {
      var next := RRTYPES[i];
      var step := RecordStep(udp, tcp, nameservers, env, next);
      RecordStepCalls(udp, tcp, nameservers, env, next);
      PassMentions(step.calls, next, rr);
      if rr == next {
        RecordStepUdpCounter(udp, tcp, nameservers, env, rr);
      } else {
        RecordStepOtherUdpCounter(udp, tcp, nameservers, env, next, rr);
      }
      if step.outcome.Completed? {
        QueriesFromUdpCounter(step.udp, step.tcp, nameservers, env, i + 1, rr, QueriesFrom(step.udp, step.tcp, nameservers, env, i + 1));
        if rr == next {
          IndexOfListed(i);
          QueriesFromLater(step.udp, step.tcp, nameservers, env, i + 1);
        }
      }
    }
  }

  /**
   * A record type's TCP counter moves only when its TCP driver is called, and
   * then by at least one connection (given a nameserver) and at most one per nameserver.
   */
  lemma {:induction false} QueriesFromTcpCounter(udp: Table, tcp: Table, nameservers: seq<string>, env: Environment,
                                                 i: nat, rr: RRType, run: Run)
    requires i <= |RRTYPES| && Covers(env, |nameservers|)
    requires run == QueriesFrom(udp, tcp, nameservers, env, i)
    ensures var before := tcp.Get(rr).transmission;
      if TcpQuery(DomainFor(rr), rr) in run.calls then
        before + AtLeastOne(|nameservers|) <= run.tcp.Get(rr).transmission <= before + |nameservers|
      else run.tcp.Get(rr).transmission == before
    decreases |RRTYPES| - i
  {
    if i < |RRTYPES| {
      var next := RRTYPES[i];
      var step := RecordStep(udp, tcp, nameservers, env, next);
      RecordStepCalls(udp, tcp, nameservers, env, next);
      PassMentions(step.calls, next, rr);
      RecordStepTcpCounter(udp, tcp, nameservers, env, next, rr);
      if step.outcome.Completed? {
        QueriesFromTcpCounter(step.udp, step.tcp, nameservers, env, i + 1, rr, QueriesFrom(step.udp, step.tcp, nameservers, env, i + 1));
        if rr == next {
          IndexOfListed(i);
          QueriesFromLater(step.udp, step.tcp, nameservers, env, i + 1);
        }
      }
    }
  }

  /** The calls of a pass for `next` mention `rr` only when `rr` is `next`, and its TCP call only when both were made. */
  lemma PassMentions(calls: seq<DriverCall>, next: RRType, rr: RRType)
    requires calls == [UdpQuery(DomainFor(next), next)] || calls == PlannedPass(next)
    ensures UdpQuery(DomainFor(rr), rr) in calls <==> rr == next
    ensures TcpQuery(DomainFor(rr), rr) in calls <==> rr == next && calls == PlannedPass(next)
  {
  }

  lemma CallsAssociate(a: seq<DriverCall>, b: seq<DriverCall>, c: seq<DriverCall>)
    ensures a + (b + c) == (a + b) + c
  {
  }

  /** How `runMeasurement` ends once its last driver call has ended as `o`. */
  ghost predicate EndsAs(outcome: RunOutcome, o: DriverOutcome, udp: Table, tcp: Table)
  {
    match o
    case Completed => outcome.Reported? && IsReport(outcome.payload, udp, tcp)
    case Aborted(m) => outcome == RunAborted(m)
    case Stalled => outcome == RunStalled
  }

  /** `udpResponses` and `tcpResponses`, the process-wide response tables. */
  class Registry {
    var udpResponses: Table
    var tcpResponses: Table

    constructor ()
      ensures udpResponses == EMPTY_TABLE && tcpResponses == EMPTY_TABLE
      ensures forall rr :: udpResponses.Get(rr) == EMPTY_SLOT && tcpResponses.Get(rr) == EMPTY_SLOT
    {
      udpResponses := EMPTY_TABLE;
      tcpResponses := EMPTY_TABLE;
    }

    /**
     * `processUDPResponse`: overwrite the record type's UDP data with the string
     * of the bytes, whatever query they answer.
     */
    method ProcessUDPResponse(responseBytes: seq<byte>, rrtype: RRType)
      modifies this
      ensures tcpResponses == old(tcpResponses)
      ensures udpResponses == Receive(old(udpResponses), Datagram(rrtype, responseBytes))
      ensures udpResponses.Get(rrtype) == old(udpResponses).Get(rrtype).(data := FromCharCodes(responseBytes))
      ensures forall x :: x != rrtype ==> udpResponses.Get(x) == old(udpResponses).Get(x)
    {
      var responseString := FromCharCodes(responseBytes);
      udpResponses := udpResponses.Set(rrtype, udpResponses.Get(rrtype).(data := responseString));
    }

    /** The callback handles each datagram that arrives, in order. */
    method ReceiveDatagrams(ds: seq<Datagram>)
      modifies this
      ensures tcpResponses == old(tcpResponses)
      ensures udpResponses == ReceiveAll(old(udpResponses), ds)
    {
      var t := 0;
      while t < |ds|
        invariant 0 <= t <= |ds|
        invariant tcpResponses == old(tcpResponses)
        invariant udpResponses == ReceiveAll(old(udpResponses), ds[..t])
      {
        assert ds[..t + 1][..t] == ds[..t];
        ProcessUDPResponse(ds[t].bytes, ds[t].rrtype);
        t := t + 1;
      }
      assert ds[..t] == ds;
    }

    /**
     * `sendUDPQuery`: up to `RESOLVCONF_ATTEMPTS` attempts per nameserver in
     * order, counting each before its send, looking at the slot after each
     * sleep and returning as soon as it holds data.
     */
    method SendUDPQuery(domain: string, nameservers: seq<string>, rrtype: RRType, steps: seq<UdpStep>)
      returns (outcome: DriverOutcome, sent: seq<Transmission>)
      requires |steps| >= RESOLVCONF_ATTEMPTS * |nameservers|
      modifies this
      ensures tcpResponses == old(tcpResponses)
      ensures var run := UdpFrom(old(udpResponses), rrtype, steps, 0, RESOLVCONF_ATTEMPTS * |nameservers|);
        && udpResponses == run.table
        && |sent| == run.attempts
        && outcome == (if run.error.Some? then Aborted(run.error.value) else Completed)
      ensures |sent| <= RESOLVCONF_ATTEMPTS * |nameservers|
      ensures sent == UdpTransmissions(nameservers, domain, rrtype, |sent|)
    {
      ghost var total := RESOLVCONF_ATTEMPTS * |nameservers|;
      ghost var spec := UdpFrom(old(udpResponses), rrtype, steps, 0, total);
      sent := [];
      var i := 0;
      while i < |nameservers|
        invariant 0 <= i <= |nameservers|
        invariant tcpResponses == old(tcpResponses)
        invariant |sent| == i * RESOLVCONF_ATTEMPTS <= total
        invariant sent == UdpTransmissions(nameservers, domain, rrtype, |sent|)
        invariant spec == UdpFrom(udpResponses, rrtype, steps, |sent|, total)
      {
        var stop;
        stop, sent := RetransmitTo(domain, nameservers, i, rrtype, steps, sent);
        if stop.Some? {
          return stop.value, sent;
        }
        i := i + 1;
      }
      outcome := Completed;
    }

    /**
     * The inner loop of `sendUDPQuery` for nameserver `i`: its attempts, until
     * one send rejects or the slot holds data (`stop` then says how the driver
     * returns) or the attempts are used up.
     */
    method RetransmitTo(domain: string, nameservers: seq<string>, i: nat, rrtype: RRType,
                        steps: seq<UdpStep>, sentBefore: seq<Transmission>)
      returns (stop: Option<DriverOutcome>, sent: seq<Transmission>)
      requires i < |nameservers| && |steps| >= RESOLVCONF_ATTEMPTS * |nameservers|
      requires |sentBefore| == i * RESOLVCONF_ATTEMPTS
      requires sentBefore == UdpTransmissions(nameservers, domain, rrtype, |sentBefore|)
      modifies this
      ensures tcpResponses == old(tcpResponses)
      ensures |sent| <= RESOLVCONF_ATTEMPTS * |nameservers|
      ensures sent == UdpTransmissions(nameservers, domain, rrtype, |sent|)
      ensures var run := UdpFrom(old(udpResponses), rrtype, steps, |sentBefore|, RESOLVCONF_ATTEMPTS * |nameservers|);
        match stop {
          case None =>
            |sent| == (i + 1) * RESOLVCONF_ATTEMPTS
            && AllSent(steps, |sentBefore|, |sent|)
            && udpResponses == Replay(old(udpResponses), rrtype, steps, |sentBefore|, |sent|)
            && run == UdpFrom(udpResponses, rrtype, steps, |sent|, RESOLVCONF_ATTEMPTS * |nameservers|)
          case Some(outcome) =>
            run == UdpRun(udpResponses, |sent|, if outcome.Aborted? then Some(outcome.message) else None)
            && !outcome.Stalled?
        }
    {
      ghost var total := RESOLVCONF_ATTEMPTS * |nameservers|;
      ghost var spec := UdpFrom(old(udpResponses), rrtype, steps, |sentBefore|, total);
      NextNameserver(i, |nameservers|);
      sent := sentBefore;
      var nameserver := nameservers[i];
      var j := 1;
      while j <= RESOLVCONF_ATTEMPTS
        invariant 1 <= j <= RESOLVCONF_ATTEMPTS + 1
        invariant tcpResponses == old(tcpResponses)
        invariant |sent| == i * RESOLVCONF_ATTEMPTS + (j - 1)
        invariant sent == UdpTransmissions(nameservers, domain, rrtype, |sent|)
        invariant spec == UdpFrom(udpResponses, rrtype, steps, |sent|, total)
        invariant AllSent(steps, |sentBefore|, |sent|)
        invariant udpResponses == Replay(old(udpResponses), rrtype, steps, |sentBefore|, |sent|)
      {
        UdpTransmissionsStep(nameservers, domain, rrtype, i, j - 1, |sent|);
        var failure := UdpAttempt(rrtype, steps, |sent|, total, old(udpResponses), |sentBefore|);
        sent := sent + [Transmission(nameserver, domain, rrtype)];
        if failure.Some? {
          return Some(Aborted(failure.value)), sent;
        }
        if udpResponses.Get(rrtype).data == "" {
          // Need to re-transmit the UDP query.
        } else {
          return Some(Completed), sent;
        }
        j := j + 1;
      }
      stop := None;
    }

    /**
     * One pass of the retransmission loop up to the check of the slot: count
     * the attempt, send (a rejection is returned), and sleep while datagrams arrive.
     */
    method UdpAttempt(rrtype: RRType, steps: seq<UdpStep>, k: nat, ghost total: nat, ghost start: Table, ghost b: nat)
      returns (failure: Option<string>)
      requires b <= k < total <= |steps|
      requires udpResponses == Replay(start, rrtype, steps, b, k) && AllSent(steps, b, k)
      modifies this
      ensures tcpResponses == old(tcpResponses)
      ensures match steps[k] {
                case SendFailed(m) => failure == Some(m) && udpResponses == Bump(old(udpResponses), rrtype)
                case Sent(received) => failure == None && udpResponses == ReceiveAll(Bump(old(udpResponses), rrtype), received)
              }
      ensures udpResponses == Attempt(old(udpResponses), rrtype, steps[k])
      ensures udpResponses == Replay(start, rrtype, steps, b, k + 1)
      ensures failure.None? ==> AllSent(steps, b, k + 1)
      ensures var run := UdpFrom(old(udpResponses), rrtype, steps, k, total);
        if failure.Some? || udpResponses.Get(rrtype).data != "" then run == UdpRun(udpResponses, k + 1, failure)
        else run == UdpFrom(udpResponses, rrtype, steps, k + 1, total)
    {
      var step := steps[k];
      udpResponses := Bump(udpResponses, rrtype);
      match step {
        case SendFailed(m) =>
          return Some(m);
        case Sent(received) =>
          ReceiveDatagrams(received);
          return None;
      }
    }

    /**
     * `sendTCPQuery`: one connection per nameserver in order, counting each
     * before it is made; the first non-empty reply is stored and ends the loop,
     * and an exception from the connection propagates.
     */
    method SendTCPQuery(domain: string, nameservers: seq<string>, rrtype: RRType,
                        streamEncode: (string, RRType) -> seq<byte>, peers: seq<TcpPeer>)
      returns (outcome: DriverOutcome, tried: seq<Transmission>)
      requires |peers| >= |nameservers|
      modifies this
      ensures udpResponses == old(udpResponses)
      ensures var replies := TcpReplies(streamEncode(domain, rrtype), peers, |nameservers|);
        var run := TcpFrom(old(tcpResponses).Get(rrtype), replies, 0);
        && tcpResponses == old(tcpResponses).Set(rrtype, run.slot)
        && |tried| == run.attempts
        && outcome == run.outcome
      ensures |tried| <= |nameservers|
      ensures tried == TcpTransmissions(nameservers, domain, rrtype, |tried|)
    {
      var buf := streamEncode(domain, rrtype);
      ghost var replies := TcpReplies(buf, peers, |nameservers|);
      ghost var spec := TcpFrom(old(tcpResponses).Get(rrtype), replies, 0);
      tried := [];
      var i := 0;
      while i < |nameservers|
        invariant 0 <= i <= |nameservers|
        invariant udpResponses == old(udpResponses)
        invariant |tried| == i
        invariant tried == TcpTransmissions(nameservers, domain, rrtype, i)
        invariant tcpResponses == old(tcpResponses).Set(rrtype, tcpResponses.Get(rrtype))
        invariant spec == TcpFrom(tcpResponses.Get(rrtype), replies, i)
      {
        var nameserver := nameservers[i];
        tried := tried + [Transmission(nameserver, domain, rrtype)];
        TcpRepliesAt(buf, peers, |nameservers|, i);
        var stop := TcpAttempt(nameserver, buf, rrtype, peers[i], replies, i);
        if stop.Some? {
          return stop.value, tried;
        }
        i := i + 1;
      }
      outcome := Completed;
    }

    /**
     * One pass of the loop in `sendTCPQuery`: count the attempt, query the
     * nameserver over TCP, and store a non-empty reply; `stop` says how the
     * driver returns when it does not move on.
     */
    method TcpAttempt(nameserver: string, buf: seq<byte>, rrtype: RRType, peer: TcpPeer,
                      ghost replies: seq<QueryResult>, ghost k: nat)
      returns (stop: Option<DriverOutcome>)
      requires k < |replies| && replies[k] == QueryOutcome(buf, peer)
      modifies this
      ensures udpResponses == old(udpResponses)
      ensures tcpResponses == old(tcpResponses).Set(rrtype, tcpResponses.Get(rrtype))
      ensures tcpResponses.Get(rrtype).transmission == old(tcpResponses).Get(rrtype).transmission + 1
      ensures stop.None? ==>
        tcpResponses.Get(rrtype) == old(tcpResponses).Get(rrtype).(transmission := old(tcpResponses).Get(rrtype).transmission + 1)
      ensures var run := TcpFrom(old(tcpResponses).Get(rrtype), replies, k);
        match stop {
          case None => run == TcpFrom(tcpResponses.Get(rrtype), replies, k + 1)
          case Some(outcome) => run == TcpRun(tcpResponses.Get(rrtype), k + 1, outcome)
        }
    {
      tcpResponses := tcpResponses.Set(rrtype, tcpResponses.Get(rrtype).(transmission := tcpResponses.Get(rrtype).transmission + 1));
      var reply, _ := SendDNSQuery(nameserver, buf, peer);
      match reply {
        case Raised(m) =>
          return Some(Aborted(m));
        case Hung =>
          return Some(Stalled);
        case Answer(responseBytes) =>
          var responseString := FromCharCodes(responseBytes);
          FromCharCodesEmpty(responseBytes);
          if responseString == "" {
            // Need to re-transmit the TCP query.
            return None;
          }
          tcpResponses := tcpResponses.Set(rrtype, tcpResponses.Get(rrtype).(data := responseString));
          return Some(Completed);
      }
    }

    /** The report assembly at the end of `sendQueries`. */
    method BuildReport() returns (payload: map<string, string>)
      ensures IsReport(payload, udpResponses, tcpResponses)
    {
      payload := map[EVENT_KEY := REPORT_EVENT];
      var i := 0;
      while i < |RRTYPES|
        invariant 0 <= i <= |RRTYPES|
        invariant payload == ReportUpTo(udpResponses, tcpResponses, i)
      {
        var rrtype := RRTYPES[i];
        assert ReportUpTo(udpResponses, tcpResponses, i + 1) == AddRecord(payload, udpResponses, tcpResponses, rrtype);
        payload := payload[ReportKey(rrtype, UdpData) := udpResponses.Get(rrtype).data];
        payload := payload[ReportKey(rrtype, UdpTransmission) := NatToString(udpResponses.Get(rrtype).transmission)];
        payload := payload[ReportKey(rrtype, TcpData) := tcpResponses.Get(rrtype).data];
        payload := payload[ReportKey(rrtype, TcpTransmission) := NatToString(tcpResponses.Get(rrtype).transmission)];
        i := i + 1;
      }
      ReportUpToIsReport(udpResponses, tcpResponses);
    }

    /**
     * One pass of the loop in `sendQueries`: the UDP driver, then the TCP
     * driver for the same domain, with the datagrams that reach the callback
     * meanwhile; `stop` says how the run ends when it does not go on.
     */
    method QueryRecordType(nameservers: seq<string>, env: Environment, i: nat)
      returns (stop: Option<DriverOutcome>, issued: seq<DriverCall>)
      requires i < |RRTYPES| && Covers(env, |nameservers|)
      modifies this
      ensures var step := RecordStep(old(udpResponses), old(tcpResponses), nameservers, env, RRTYPES[i]);
        && udpResponses == step.udp && tcpResponses == step.tcp && issued == step.calls
        && stop == if step.outcome.Completed? then None else Some(step.outcome)
    {
      var rrtype := RRTYPES[i];
      var domain := DomainFor(rrtype);
      issued := [UdpQuery(domain, rrtype)];
      var udpOutcome, _ := SendUDPQuery(domain, nameservers, rrtype, env.udpSteps(rrtype));
      if udpOutcome.Aborted? {
        return Some(udpOutcome), issued;
      }
      issued := issued + [TcpQuery(domain, rrtype)];
      var tcpOutcome, _ := SendTCPQuery(domain, nameservers, rrtype, env.streamEncode, env.tcpPeers(rrtype));
      ReceiveDatagrams(env.tcpPhaseDatagrams(rrtype));
      if !tcpOutcome.Completed? {
        return Some(tcpOutcome), issued;
      }
      stop := None;
    }

    /**
     * `sendQueries`: both drivers for every record type in order, a thrown
     * exception or a call that never returns ending the run, then the report.
     */
    method SendQueries(nameservers: seq<string>, env: Environment) returns (outcome: RunOutcome, calls: seq<DriverCall>)
      requires Covers(env, |nameservers|)
      modifies this
      ensures var run := QueriesFrom(old(udpResponses), old(tcpResponses), nameservers, env, 0);
        && udpResponses == run.udp && tcpResponses == run.tcp && calls == run.calls
        && EndsAs(outcome, run.outcome, udpResponses, tcpResponses)
    {
      var stop;
      stop, calls := QueryAll(nameservers, env);
      if stop.Some? {
        outcome := if stop.value.Aborted? then RunAborted(stop.value.message) else RunStalled;
      } else {
        var payload := BuildReport();
        outcome := Reported(payload);
      }
    }

    /** The loop of `sendQueries`; `stop` says how a driver that did not return normally ended it. */
    method QueryAll(nameservers: seq<string>, env: Environment) returns (stop: Option<DriverOutcome>, calls: seq<DriverCall>)
      requires Covers(env, |nameservers|)
      modifies this
      ensures var run := QueriesFrom(old(udpResponses), old(tcpResponses), nameservers, env, 0);
        && udpResponses == run.udp && tcpResponses == run.tcp && calls == run.calls
        && stop == if run.outcome.Completed? then None else Some(run.outcome)
    {
      ghost var spec := QueriesFrom(udpResponses, tcpResponses, nameservers, env, 0);
      ghost var rest := spec;
      calls := [];
      var i := 0;
      while i < |RRTYPES|
        invariant 0 <= i <= |RRTYPES|
        invariant rest == QueriesFrom(udpResponses, tcpResponses, nameservers, env, i)
        invariant spec == Run(rest.udp, rest.tcp, calls + rest.calls, rest.outcome)
      {
        var issued;
        stop, issued := QueryRecordType(nameservers, env, i);
        if stop.Some? {
          assert issued == issued + [];
          calls := calls + issued;
          return;
        }
        ghost var later := QueriesFrom(udpResponses, tcpResponses, nameservers, env, i + 1);
        CallsAssociate(calls, issued, later.calls);
        calls := calls + issued;
        rest := later;
        i := i + 1;
      }
      assert calls + [] == calls;
      stop := None;
    }

    /**
     * `runMeasurement`: read the nameservers, set up the UDP socket and its
     * listener (`udpSetupError` is the exception either throws), then send the queries.
     */
    method RunMeasurement(source: NameserverSource, udpSetupError: Option<string>, env: Environment)
      returns (outcome: RunOutcome, calls: seq<DriverCall>)
      requires Covers(env, RawCount(source))
      modifies this
      ensures match ConfiguredNameservers(source) {
        case Failure(m) =>
          outcome == RunAborted(m) && calls == []
          && udpResponses == old(udpResponses) && tcpResponses == old(tcpResponses)
        case Success(nameservers) =>
          if udpSetupError.Some? then
            outcome == RunAborted(udpSetupError.value) && calls == []
            && udpResponses == old(udpResponses) && tcpResponses == old(tcpResponses)
          else
            var run := QueriesFrom(old(udpResponses), old(tcpResponses), nameservers, env, 0);
            && udpResponses == run.udp && tcpResponses == run.tcp && calls == run.calls
            && EndsAs(outcome, run.outcome, udpResponses, tcpResponses)
      }
    {
      var nameservers := ReadNameservers(source);
      if nameservers.Failure? {
        return RunAborted(nameservers.error), [];
      }
      if udpSetupError.Some? {
        return RunAborted(udpSetupError.value), [];
      }
      CoversFewer(env, RawCount(source), |nameservers.value|);
      outcome, calls := SendQueries(nameservers.value, env);
    }
  }
}
