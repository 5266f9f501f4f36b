/** The proxy table of backend/src/proxyManager.js: the record rules of
    addProxy/updateProxy, the status sequence of testProxy, the decisions the
    connection probe makes, and the configuration handed to automation. */
module ProxyManager {
  import opened Common
  import opened JsText
  import Base64

  /** A stored proxy. `proxyType` is the record's `type` field; ports are kept as text. */
  datatype Proxy = Proxy(
    id: string,
    name: string,
    proxyType: string,
    host: string,
    port: string,
    username: string,
    password: string,
    country: string,
    city: string,
    status: ProxyStatus,
    lastTest: Option<int>,
    createdAt: int,
    updatedAt: int)

  /** The `proxyData` argument of addProxy; a missing property is None. */
  datatype ProxyInput = ProxyInput(
    name: string,
    proxyType: Option<string>,
    host: string,
    port: string,
    username: Option<string>,
    password: Option<string>,
    country: Option<string>,
    city: Option<string>)

  /** The `proxyData` argument of updateProxy; a missing property is None. */
  datatype ProxyPatch = ProxyPatch(
    name: Option<string>,
    proxyType: Option<string>,
    host: Option<string>,
    port: Option<string>,
    username: Option<string>,
    password: Option<string>,
    country: Option<string>,
    city: Option<string>)

  const NotFound: string := "Proxy not found"

  /** The record addProxy stores for a fresh id at time `now`. */
  function NewProxy(id: string, input: ProxyInput, now: int): (p: Proxy)
    ensures p.id == id && p.name == input.name && p.host == input.host && p.port == input.port
    ensures p.proxyType == OrString(input.proxyType, "http")
    ensures p.proxyType != ""
    ensures p.username == OrString(input.username, "") && p.password == OrString(input.password, "")
    ensures p.country == OrString(input.country, "") && p.city == OrString(input.city, "")
    ensures p.status == NotTested && p.lastTest == None
    ensures p.createdAt == now && p.updatedAt == now
  {
    Proxy(id, input.name, OrString(input.proxyType, "http"), input.host, input.port,
          OrString(input.username, ""), OrString(input.password, ""),
          OrString(input.country, ""), OrString(input.city, ""),
          NotTested, None, now, now)
  }

  /** The record updateProxy stores: name, type, host and port are replaced only by a
      non-empty value (`||`), credentials and location by any value given (`!== undefined`). */
  function MergeProxy(p: Proxy, patch: ProxyPatch, now: int): (q: Proxy)
    ensures q.id == p.id && q.status == p.status && q.lastTest == p.lastTest
    ensures q.createdAt == p.createdAt && q.updatedAt == now
    ensures q.name == (if patch.name.Some? && patch.name.value != "" then patch.name.value else p.name)
    ensures q.proxyType == (if patch.proxyType.Some? && patch.proxyType.value != "" then patch.proxyType.value else p.proxyType)
    ensures q.host == (if patch.host.Some? && patch.host.value != "" then patch.host.value else p.host)
    ensures q.port == (if patch.port.Some? && patch.port.value != "" then patch.port.value else p.port)
    ensures q.username == (if patch.username.Some? then patch.username.value else p.username)
    ensures q.password == (if patch.password.Some? then patch.password.value else p.password)
    ensures q.country == (if patch.country.Some? then patch.country.value else p.country)
    ensures q.city == (if patch.city.Some? then patch.city.value else p.city)
  {
    p.(name := OrString(patch.name, p.name),
       proxyType := OrString(patch.proxyType, p.proxyType),
       host := OrString(patch.host, p.host),
       port := OrString(patch.port, p.port),
       username := patch.username.GetOr(p.username),
       password := patch.password.GetOr(p.password),
       country := patch.country.GetOr(p.country),
       city := patch.city.GetOr(p.city),
       updatedAt := now)
  }

  /** An update that gives no property, or only empty strings for the `||` fields,
      changes nothing but the time stamp. */
  lemma MergeWithoutValues(p: Proxy, patch: ProxyPatch, now: int)
    requires patch.name.None? || patch.name == Some("")
    requires patch.proxyType.None? || patch.proxyType == Some("")
    requires patch.host.None? || patch.host == Some("")
    requires patch.port.None? || patch.port == Some("")
    requires patch.username.None? && patch.password.None? && patch.country.None? && patch.city.None?
    ensures MergeProxy(p, patch, now) == p.(updatedAt := now)
  {
  }

  /** Applying the same update twice is the same as applying it once. */
  lemma MergeIdempotent(p: Proxy, patch: ProxyPatch, t1: int, t2: int)
    ensures MergeProxy(MergeProxy(p, patch, t1), patch, t2) == MergeProxy(p, patch, t2)
  {
  }

  /** The empty string clears a credential but cannot clear the host. */
  lemma MergeEmptyStrings(p: Proxy, now: int)
    ensures var patch := ProxyPatch(None, None, Some(""), None, Some(""), Some(""), None, None);
            var q := MergeProxy(p, patch, now);
            q.host == p.host && q.username == "" && q.password == ""
  {
  }

  /** `proxies.findIndex(proxy => proxy.id === id)`. */
  function IndexOfProxy(proxies: seq<Proxy>, id: string): (i: int)
    ensures -1 <= i < |proxies|
    ensures i >= 0 ==> proxies[i].id == id && forall j :: 0 <= j < i ==> proxies[j].id != id
    ensures i == -1 ==> forall j :: 0 <= j < |proxies| ==> proxies[j].id != id
  {
    FindIndex(proxies, (p: Proxy) => p.id == id)
  }

  /** `getProxy(id)`: the first proxy with that id, or null. */
  function FindProxy(proxies: seq<Proxy>, id: string): (r: Option<Proxy>)
    ensures r.None? <==> forall j :: 0 <= j < |proxies| ==> proxies[j].id != id
    ensures r.Some? ==> r.value.id == id && r.value in proxies
    ensures r.Some? ==> r.value == proxies[IndexOfProxy(proxies, id)]
  {
    var i := IndexOfProxy(proxies, id);
    if i < 0 then None else Some(proxies[i])
  }

  /** The URL the probe asks the proxy to fetch, with the protocol and host name
      `new URL(testUrl)` reports for it. */
  const TestProtocol: string := "https:"
  const TestHostname: string := "www.google.com"
  const TestUrl: string := TestProtocol + "//" + TestHostname
  const ConnectionTimeoutMs: nat := 10000
  const RequestTimeoutMs: nat := 5000
  const ProbeUserAgent: string := "Mozilla/5.0 (Windows NT 10.0; Win64; x64) AppleWebKit/537.36 (KHTML, like Gecko) Chrome/91.0.4472.124 Safari/537.36"

  /** The SOCKS destination port for the test URL's protocol. */
  function DestinationPort(protocol: string): (port: nat)
    ensures port == 443 <==> protocol == "https:"
    ensures port == 443 || port == 80
  {
    if protocol == "https:" then 443 else 80
  }

  /** testProxyConnection takes the SOCKS route iff the type starts with `socks`. */
  predicate UsesSocks(p: Proxy) {
    StartsWith(p.proxyType, "socks")
  }

  /** `proxy.username && proxy.password`. */
  predicate HasCredentials(username: string, password: string) {
    username != "" && password != ""
  }

  /** The options of the HTTP probe request (testHttpProxy). */
  datatype HttpProbe = HttpProbe(
    hostname: string,
    port: string,
    path: string,
    httpMethod: string,
    timeoutMs: nat,
    userAgent: string,
    proxyAuthorization: Option<string>,
    tls: bool)

  /** The options of the SOCKS connection (testSocksProxy). */
  datatype SocksProbe = SocksProbe(
    host: string,
    port: NumValue,
    version: nat,
    destinationHost: string,
    destinationPort: nat,
    timeoutMs: nat,
    userId: Option<string>,
    password: Option<string>)

  datatype ProbeRequest = ViaHttp(http: HttpProbe) | ViaSocks(socks: SocksProbe)

  /** The request the connection probe sends through the proxy. */
  function ProbeRequestFor(p: Proxy): (r: ProbeRequest)
    ensures r.ViaSocks? <==> UsesSocks(p)
    ensures r.ViaHttp? ==> r.http.tls == (p.proxyType == "https")
    ensures r.ViaHttp? ==> r.http.hostname == p.host && r.http.port == p.port && r.http.path == TestUrl
    ensures r.ViaHttp? ==> (r.http.proxyAuthorization.Some? <==> HasCredentials(p.username, p.password))
    ensures r.ViaHttp? && HasCredentials(p.username, p.password) ==>
              r.http.proxyAuthorization == Some(Base64.BasicCredentials(p.username, p.password))
    ensures r.ViaSocks? ==> r.socks.version == (if p.proxyType == "socks4" then 4 else 5)
    ensures r.ViaSocks? ==> r.socks.port == ParseInt(p.port) && r.socks.host == p.host
    ensures r.ViaSocks? ==> r.socks.destinationHost == "www.google.com" && r.socks.destinationPort == 443
    ensures r.ViaSocks? ==> (r.socks.userId.Some? <==> HasCredentials(p.username, p.password))
    ensures r.ViaSocks? ==> (r.socks.password.Some? <==> HasCredentials(p.username, p.password))
  {
    var creds := HasCredentials(p.username, p.password);
    if UsesSocks(p) then
      ViaSocks(SocksProbe(
        p.host, ParseInt(p.port), if p.proxyType == "socks4" then 4 else 5,
        TestHostname, DestinationPort(TestProtocol), RequestTimeoutMs,
        if creds then Some(p.username) else None,
        if creds then Some(p.password) else None))
    else
      ViaHttp(HttpProbe(
        p.host, p.port, TestUrl, "GET", RequestTimeoutMs, ProbeUserAgent,
        if creds then Some(Base64.BasicCredentials(p.username, p.password)) else None,
        p.proxyType == "https"))
  }

  /** A decimal port reaches the SOCKS client as its number. */
  lemma SocksPortOfDecimal(p: Proxy, n: nat)
    requires UsesSocks(p) && p.port == NatToString(n)
    ensures ProbeRequestFor(p).socks.port == Num(n)
  {
    assert NatToString(n) + "" == NatToString(n);
    ParseIntOfNat(n, "");
  }

  /** The Proxy-Authorization value carries exactly `username:password` (section 2 of RFC 7617). */
  lemma ProbeAuthorizationCarriesCredentials(p: Proxy)
    requires !UsesSocks(p) && HasCredentials(p.username, p.password)
    ensures var v := ProbeRequestFor(p).http.proxyAuthorization.value;
            StartsWith(v, "Basic ") &&
            Base64.Decode(v[6..]) == Some(Base64.Utf8(p.username) + [0x3A] + Base64.Utf8(p.password))
  {
    Base64.BasicCredentialsDecode(p.username, p.password);
  }

  /** The first thing that settles the probe's promise. */
  datatype ProbeEvent =
    | TimedOut              // the 10 second timer fired first
    | Threw                 // starting the probe threw synchronously
    | HttpResponse(statusCode: int)
    | HttpRequestError
    | SocksConnected
    | SocksFailed

  /** The status classes 2xx and 3xx of section 15 of RFC 9110. */
  predicate HttpWorking(statusCode: int) {
    200 <= statusCode < 400
  }

  lemma HttpWorkingClasses(statusCode: int)
    requires statusCode >= 0
    ensures HttpWorking(statusCode) <==> statusCode / 100 == 2 || statusCode / 100 == 3
  {
  }

  /** The value testProxyConnection resolves with; it never rejects. An event of the
      route not taken cannot occur and resolves nothing in the source; it gives false here. */
  function ConnectionWorks(p: Proxy, ev: ProbeEvent): (ok: bool)
    ensures ok <==> ((ev.HttpResponse? && !UsesSocks(p) && HttpWorking(ev.statusCode))
                     || (ev.SocksConnected? && UsesSocks(p)))
    ensures ev.TimedOut? || ev.Threw? || ev.HttpRequestError? || ev.SocksFailed? ==> !ok
  {
    match ev
    case TimedOut => false
    case Threw => false
    case HttpResponse(code) => !UsesSocks(p) && HttpWorking(code)
    case HttpRequestError => false
    case SocksConnected => UsesSocks(p)
    case SocksFailed => false
  }

  /** The status testProxy ends with. */
  function FinalStatus(working: bool): (s: ProxyStatus)
    ensures s == Working <==> working
    ensures s == Working || s == Status.Error
  {
    if working then Working else Status.Error
  }

  /** The `proxy` object as the first status callback sees it. */
  function TestingSnapshot(p: Proxy, now: int): (q: Proxy)
    ensures q.status == Testing && q.lastTest == Some(now)
    ensures q.(status := p.status, lastTest := p.lastTest) == p
  {
    p.(status := Testing, lastTest := Some(now))
  }

  /** The configuration formatProxyForAutomation produces. */
  datatype AutomationProxy = AutomationProxy(server: string, proxyType: string, username: Option<string>, password: Option<string>)

  function FormatProxyForAutomation(proxy: Option<Proxy>): (r: Option<AutomationProxy>)
    ensures r.None? <==> proxy.None?
    ensures r.Some? ==> r.value.server == proxy.value.host + ":" + proxy.value.port
    ensures r.Some? ==> r.value.proxyType == proxy.value.proxyType
    ensures r.Some? ==> (r.value.username.Some? <==> HasCredentials(proxy.value.username, proxy.value.password))
    ensures r.Some? && r.value.username.Some? ==>
              r.value.username == Some(proxy.value.username) && r.value.password == Some(proxy.value.password)
    ensures r.Some? ==> (r.value.password.Some? <==> r.value.username.Some?)
  {
    match proxy
    case None => None
    case Some(p) =>
      var creds := HasCredentials(p.username, p.password);
      Some(AutomationProxy(p.host + ":" + p.port, p.proxyType,
                           if creds then Some(p.username) else None,
                           if creds then Some(p.password) else None))
  }

  /** The server text splits back into host and port when neither holds a colon. */
  lemma AutomationServerSplits(p: Proxy)
    requires ':' !in p.host && ':' !in p.port
    ensures Split(FormatProxyForAutomation(Some(p)).value.server, ':') == [p.host, p.port]
  {
    assert p.host + ":" + p.port == p.host + [':'] + p.port;
    SplitTwo(p.host, p.port, ':');
  }

  /** The in-memory `proxies` array of the module. */
  class ProxyTable {
    var proxies: seq<Proxy>

    constructor ()
      ensures proxies == []
    {
      proxies := [];
    }

    /** addProxy: appends the new record and returns it. */
    method AddProxy(id: string, input: ProxyInput, now: int) returns (p: Proxy)
      modifies this
      ensures p == NewProxy(id, input, now)
      ensures proxies == old(proxies) + [p]
    {
      p := NewProxy(id, input, now);
      proxies := proxies + [p];
    }

    /** getProxy */
    function GetProxy(id: string): (r: Option<Proxy>)
      reads this
      ensures r.Some? ==> r.value.id == id && r.value in proxies
      ensures r.None? ==> forall j :: 0 <= j < |proxies| ==> proxies[j].id != id
      ensures r.Some? ==> r.value == proxies[IndexOfProxy(proxies, id)]
    {
      FindProxy(proxies, id)
    }

    /** updateProxy: replaces the first record with that id by its merge with the patch. */
    method UpdateProxy(id: string, patch: ProxyPatch, now: int) returns (r: Result<Proxy, string>)
      modifies this
      ensures var i := IndexOfProxy(old(proxies), id);
              if i < 0 then r == Err("Failed to update proxy: " + NotFound) && proxies == old(proxies)
              else r == Ok(MergeProxy(old(proxies)[i], patch, now)) && proxies == old(proxies)[i := r.value]
    {
      var i := IndexOfProxy(proxies, id);
      if i == -1 {
        return Err("Failed to update proxy: " + NotFound);
      }
      var q := MergeProxy(proxies[i], patch, now);
      proxies := proxies[i := q];
      r := Ok(q);
    }

    /** deleteProxy: removes exactly the first record with that id. */
    method DeleteProxy(id: string) returns (r: Result<bool, string>)
      modifies this
      ensures var i := IndexOfProxy(old(proxies), id);
              if i < 0 then r == Err("Failed to delete proxy: " + NotFound) && proxies == old(proxies)
              else r == Ok(true) && proxies == Splice(old(proxies), i, 1, [])
    {
      var i := IndexOfProxy(proxies, id);
      if i == -1 {
        return Err("Failed to delete proxy: " + NotFound);
      }
      proxies := Splice(proxies, i, 1, []);
      r := Ok(true);
    }

    /** testProxy up to the probe: the first record with the id is marked `testing`
        with the test time, and the first callback sees it. */
    method BeginTest(id: string, now: int) returns (r: Result<Proxy, string>)
      modifies this
      ensures var i := IndexOfProxy(old(proxies), id);
              if i < 0 then r == Err("Failed to test proxy: " + NotFound) && proxies == old(proxies)
              else r == Ok(TestingSnapshot(old(proxies)[i], now)) && proxies == old(proxies)[i := r.value]
    {
      var i := IndexOfProxy(proxies, id);
      if i == -1 {
        return Err("Failed to test proxy: " + NotFound);
      }
      var proxy := proxies[i].(status := Testing, lastTest := Some(now));
      proxies := proxies[i := proxy];
      r := Ok(proxy);
    }

    /** testProxy after the probe, with the record looked up again by id rather than by
        the index found before the probe: only its status changes, and a record deleted
        during the probe stays deleted. */
    method FinishTest(id: string, working: bool) returns (stored: Option<Proxy>)
      modifies this
      ensures var i := IndexOfProxy(old(proxies), id);
              if i < 0 then stored == None && proxies == old(proxies)
              else stored == Some(old(proxies)[i].(status := FinalStatus(working))) && proxies == old(proxies)[i := stored.value]
    {
      var i := IndexOfProxy(proxies, id);
      if i == -1 {
        return None;
      }
      var proxy := proxies[i].(status := FinalStatus(working));
      proxies := proxies[i := proxy];
      stored := Some(proxy);
    }

    /** testProxy with nothing else happening during the probe: `testing` with the test
        time and a first callback, the probe, the final status and a second callback;
        `notices` are the callback arguments. */
    method TestProxy(id: string, ev: ProbeEvent, now: int) returns (r: Result<Proxy, string>, notices: seq<Proxy>)
      modifies this
      ensures var i := IndexOfProxy(old(proxies), id);
              if i < 0 then
                r == Err("Failed to test proxy: " + NotFound) && notices == [] && proxies == old(proxies)
              else
                var testing := TestingSnapshot(old(proxies)[i], now);
                var done := testing.(status := FinalStatus(ConnectionWorks(testing, ev)));
                r == Ok(done) && notices == [testing, done] && proxies == old(proxies)[i := done]
    {
      ghost var before := proxies;
      var begun := BeginTest(id, now);
      if begun.Err? {
        return begun, [];
      }
      var testing := begun.value;
      ProxyIndexOfSameIds(before, proxies, id);
      var isWorking := ConnectionWorks(testing, ev);
      var stored := FinishTest(id, isWorking);
      notices := [testing, stored.value];
      r := Ok(stored.value);
    }
  }

  /** The lookup by id answers the same position in two arrays with the same ids. */
  lemma ProxyIndexOfSameIds(a: seq<Proxy>, b: seq<Proxy>, id: string)
    requires |a| == |b| && forall j :: 0 <= j < |a| ==> a[j].id == b[j].id
    ensures IndexOfProxy(a, id) == IndexOfProxy(b, id)
  {
    var i, k := IndexOfProxy(a, id), IndexOfProxy(b, id);
    if i >= 0 && k >= 0 {
      assert !(i < k) && !(k < i);
    }
  }

  /** The lookup answers the position of the first record with the id. */
  lemma IndexOfProxyAt(proxies: seq<Proxy>, id: string, k: nat)
    requires k < |proxies| && proxies[k].id == id
    requires forall j :: 0 <= j < k ==> proxies[j].id != id
    ensures IndexOfProxy(proxies, id) == k
  {
    var i := IndexOfProxy(proxies, id);
    assert !(i < k) && !(k < i);
  }

  /** After a test the record is `working` exactly when the probe succeeded, its test
      time is the call's, and nothing else of the record changed. */
  lemma TestedRecord(p: Proxy, ev: ProbeEvent, now: int)
    ensures var testing := TestingSnapshot(p, now);
            var done := testing.(status := FinalStatus(ConnectionWorks(testing, ev)));
            (done.status == Working <==> ConnectionWorks(p, ev)) &&
            done.lastTest == Some(now) &&
            done.(status := p.status, lastTest := p.lastTest) == p
  {
  }

  /** The `proxies` array as JavaScript holds it: each slot refers to an object, so
      the `proxy` testProxy keeps across the probe is the object, not a copy. */
  datatype Heap = Heap(slots: seq<nat>, objects: map<nat, Proxy>)

  predicate WellFormed(h: Heap) {
    forall k :: 0 <= k < |h.slots| ==> h.slots[k] in h.objects
  }

  /** The records the array shows. */
  function Records(h: Heap): (rs: seq<Proxy>)
    requires WellFormed(h)
    ensures |rs| == |h.slots| && forall k :: 0 <= k < |rs| ==> rs[k] == h.objects[h.slots[k]]
  {
    seq(|h.slots|, k requires 0 <= k < |h.slots| => h.objects[h.slots[k]])
  }

  /** What testProxy holds across the probe: the index it found and the object at it. */
  datatype Begun = Begun(index: int, held: nat, heap: Heap)

  /** testProxy up to the probe as written: the object at the first index with the id
      is marked `testing` in place. */
  function BeginTestAsWritten(h: Heap, id: string, now: int): (b: Begun)
    requires WellFormed(h)
    ensures WellFormed(b.heap) && b.heap.slots == h.slots
    ensures var i := IndexOfProxy(Records(h), id);
            b.index == i &&
            (i >= 0 ==> b.held == h.slots[i] && b.heap.objects == h.objects[b.held := TestingSnapshot(h.objects[b.held], now)])
  {
    var i := IndexOfProxy(Records(h), id);
    if i < 0 then Begun(i, 0, h)
    else
      var o := h.slots[i];
      Begun(i, o, h.(objects := h.objects[o := TestingSnapshot(h.objects[o], now)]))
  }

  /** deleteProxy on the array: the slot goes, the object it referred to stays. */
  function DeleteAsWritten(h: Heap, id: string): (g: Heap)
    requires WellFormed(h)
    ensures WellFormed(g) && g.objects == h.objects
    ensures var i := IndexOfProxy(Records(h), id);
            if i < 0 then g == h else Records(g) == Splice(Records(h), i, 1, [])
  {
    var i := IndexOfProxy(Records(h), id);
    if i < 0 then h
    else
      var g := h.(slots := Splice(h.slots, i, 1, []));
      assert Records(g) == Splice(Records(h), i, 1, []);
      g
  }

  /** testProxy after the probe as written: the held object gets its final status and
      is stored back at the index found before the probe (an index equal to the length
      appends, as an assignment past the last element does). */
  function FinishTestAsWritten(h: Heap, index: nat, held: nat, working: bool): (g: Heap)
    requires WellFormed(h) && held in h.objects && index <= |h.slots|
    ensures WellFormed(g)
    ensures g.objects == h.objects[held := h.objects[held].(status := FinalStatus(working))]
    ensures index < |h.slots| ==> g.slots == h.slots[index := held]
    ensures index == |h.slots| ==> g.slots == h.slots + [held]
  {
    var objects := h.objects[held := h.objects[held].(status := FinalStatus(working))];
    Heap(if index < |h.slots| then h.slots[index := held] else h.slots + [held], objects)
  }

  lemma BeginTestOfSecond(a: Proxy, b: Proxy, c: Proxy, now: int)
    requires a.id != b.id
    ensures BeginTestAsWritten(Heap([0, 1, 2], map[0 := a, 1 := b, 2 := c]), b.id, now) ==
            Begun(1, 1, Heap([0, 1, 2], map[0 := a, 1 := TestingSnapshot(b, now), 2 := c]))
  {
    var h := Heap([0, 1, 2], map[0 := a, 1 := b, 2 := c]);
    assert Records(h) == [a, b, c];
    IndexOfProxyAt(Records(h), b.id, 1);
  }

  lemma DeleteFirstSlot(objects: map<nat, Proxy>)
    requires 0 in objects && 1 in objects && 2 in objects
    ensures DeleteAsWritten(Heap([0, 1, 2], objects), objects[0].id) == Heap([1, 2], objects)
  {
    var h := Heap([0, 1, 2], objects);
    assert Records(h)[0] == objects[0];
    IndexOfProxyAt(Records(h), objects[0].id, 0);
  }

  /** Testing `b` while `a`, stored before it, is deleted: the write after the probe
      lands on the slot `c` moved into, so `c` is lost and `b` is shown twice. */
  lemma StaleIndexAsWritten(a: Proxy, b: Proxy, c: Proxy, now: int, working: bool)
    requires a.id != b.id && c.id != b.id
    ensures var begun := BeginTestAsWritten(Heap([0, 1, 2], map[0 := a, 1 := b, 2 := c]), b.id, now);
            var deleted := DeleteAsWritten(begun.heap, a.id);
            var done := b.(status := FinalStatus(working), lastTest := Some(now));
            begun.index == 1 && begun.held in deleted.objects &&
            Records(FinishTestAsWritten(deleted, 1, begun.held, working)) == [done, done] &&
            c !in Records(FinishTestAsWritten(deleted, 1, begun.held, working))
  {
    BeginTestOfSecond(a, b, c, now);
    var objects := map[0 := a, 1 := TestingSnapshot(b, now), 2 := c];
    DeleteFirstSlot(objects);
    var done := b.(status := FinalStatus(working), lastTest := Some(now));
    var finished := FinishTestAsWritten(Heap([1, 2], objects), 1, 1, working);
    assert finished == Heap([1, 1], objects[1 := done]);
    assert Records(finished) == [done, done];
  }

  /** The same sequence on the corrected table: `b` carries its result and `c` survives. */
  method StaleIndexCorrected(input: ProxyInput, working: bool) returns (records: seq<Proxy>)
    ensures records == [NewProxy("b", input, 0).(status := FinalStatus(working), lastTest := Some(1)),
                        NewProxy("c", input, 0)]
  {
    var table := new ProxyTable();
    var a := table.AddProxy("a", input, 0);
    var b := table.AddProxy("b", input, 0);
    var c := table.AddProxy("c", input, 0);
    assert table.proxies == [a, b, c];
    assert "a" != "b" by { assert "a"[0] != "b"[0]; }
    assert "c" != "b" by { assert "c"[0] != "b"[0]; }
    IndexOfProxyAt(table.proxies, "b", 1);
    var begun := table.BeginTest("b", 1);
    IndexOfProxyAt(table.proxies, "a", 0);
    var deleted := table.DeleteProxy("a");
    assert table.proxies == [TestingSnapshot(b, 1), c];
    IndexOfProxyAt(table.proxies, "b", 0);
    var stored := table.FinishTest("b", working);
    records := table.proxies;
  }
}
