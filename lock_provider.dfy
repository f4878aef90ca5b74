/** The lock registry of the companion app: it turns a scanned QR code or a stored
    MAC address into a lock session, provisions Wi-Fi locks with the cloud before
    registering them, and caches registered sessions by MAC address. */
module LockResolver {
  import opened Common

  /** The device record built from a decoded QR code or a stored connection record. */
  datatype LockInfo = LockInfo(
    macAddress: string,
    model: string,
    serialNumber: Option<string>,
    deviceName: string)

  /** A lock session. Every branch of the source builds it with `wifiLock.init(lockInfo)`,
      so a session is determined by the record it was built from. */
  datatype Lock = Lock(info: LockInfo)

  /** The one-time payload of `deviceProvisionCreate`. */
  datatype ProvisionTicket = ProvisionTicket(
    serialNumber: string,
    deviceName: string,
    timeZone: string,
    timeZoneOffset: int,
    clientToken: string,
    model: string)

  /** The platform's default time zone: its id and its current UTC offset in milliseconds. */
  datatype Zone = Zone(id: string, offsetMillis: int)

  /** What one QR resolution does: the lock it returns, the provisioning request it
      sent (if any) and the registry map afterwards. */
  datatype Resolution = Resolution(
    lock: Option<Lock>,
    ticket: Option<ProvisionTicket>,
    locks: map<string, Lock>)

  /** The registry invariant: every key maps to a lock built for that MAC address. */
  ghost predicate KeysMatchMacs(locks: map<string, Lock>)
  {
    forall mac :: mac in locks ==> locks[mac].info.macAddress == mac
  }

  /** Kotlin `Int / Int`, which truncates toward zero (Dafny's `/` is Euclidean). */
  function TruncDiv(a: int, b: int): int
    requires b > 0
  {
    if a >= 0 then a / b else -((-a) / b)
  }

  /** Truncating division is odd in its dividend, unlike Euclidean division:
      a zone half a second west of UTC has offset 0, not -1. */
  lemma TruncDivIsOdd(a: int, b: int)
    requires b > 0
    ensures TruncDiv(-a, b) == -TruncDiv(a, b)
    ensures TruncDiv(-500, 1000) == 0 && -500 / 1000 == -1
  {
  }

  /** The QR decoding shared by `getLockByQRCode` and `getLockTypeByQRCode`:
      the BLE-pairing parser first, the Wi-Fi parser only when the first one fails. */
  function ParseQrCode(
    content: string,
    parseBle: string -> Option<LockInfo>,
    parseWifi: string -> Option<LockInfo>): (r: Option<LockInfo>)
    ensures r.None? <==> parseBle(content).None? && parseWifi(content).None?
    ensures parseBle(content).Some? ==> r == parseBle(content)
    ensures r.Some? ==> r == parseBle(content) || r == parseWifi(content)
  {
    if parseBle(content).Some? then parseBle(content) else parseWifi(content)
  }

  /** The provisioning request `createWifiLock` sends for a record with a serial number. */
  function TicketFor(info: LockInfo, serialNumber: string, clientToken: string, zone: Zone): (t: ProvisionTicket)
    ensures t.serialNumber == serialNumber && t.clientToken == clientToken
    ensures t.deviceName == info.deviceName && t.model == info.model && t.timeZone == zone.id
    ensures t.timeZoneOffset == TruncDiv(zone.offsetMillis, 1000)
  {
    ProvisionTicket(serialNumber, info.deviceName, zone.id, TruncDiv(zone.offsetMillis, 1000), clientToken, info.model)
  }

  /** `createWifiLock`: without a serial number nothing is sent and there is no lock;
      otherwise the ticket is sent and the lock exists iff the cloud accepted it. */
  function CreateWifiLock(info: LockInfo, clientToken: string, zone: Zone, provisionAccepted: bool)
    : (r: (Option<Lock>, Option<ProvisionTicket>))
    ensures r.1.Some? <==> info.serialNumber.Some?
    ensures r.1.Some? ==> r.1.value == TicketFor(info, info.serialNumber.value, clientToken, zone)
    ensures r.0.Some? <==> info.serialNumber.Some? && provisionAccepted
    ensures r.0.Some? ==> r.0.value == Lock(info)
  {
    if info.serialNumber.None? then (None, None)
    else
      var ticket := TicketFor(info, info.serialNumber.value, clientToken, zone);
      if !provisionAccepted then (None, Some(ticket)) else (Some(Lock(info)), Some(ticket))
  }

  /** `getLockByQRCode` on a registry map, as a function of its inputs. */
  function ResolveQr(
    locks: map<string, Lock>,
    content: string,
    parseBle: string -> Option<LockInfo>,
    parseWifi: string -> Option<LockInfo>,
    hasWifiTrait: string -> bool,
    awsClientToken: Option<string>,
    zone: Zone,
    provisionAccepted: bool): (r: Resolution)
    // both parsers fail: null, nothing sent, registry unchanged
    ensures ParseQrCode(content, parseBle, parseWifi).None? ==> r == Resolution(None, None, locks)
    // a cached MAC: the stored lock, nothing sent, registry unchanged
    ensures ParseQrCode(content, parseBle, parseWifi).Some? &&
            ParseQrCode(content, parseBle, parseWifi).value.macAddress in locks ==>
              var mac := ParseQrCode(content, parseBle, parseWifi).value.macAddress;
              r == Resolution(Some(locks[mac]), None, locks)
    // an uncached Wi-Fi model without a client token: null, nothing sent, registry unchanged
    ensures ParseQrCode(content, parseBle, parseWifi).Some? &&
            ParseQrCode(content, parseBle, parseWifi).value.macAddress !in locks &&
            hasWifiTrait(ParseQrCode(content, parseBle, parseWifi).value.model) &&
            awsClientToken.None? ==>
              r.lock.None? && r.ticket.None? && r.locks == locks
    // an uncached model without the Wi-Fi trait is registered with no provisioning
    ensures ParseQrCode(content, parseBle, parseWifi).Some? &&
            ParseQrCode(content, parseBle, parseWifi).value.macAddress !in locks &&
            !hasWifiTrait(ParseQrCode(content, parseBle, parseWifi).value.model) ==>
              var info := ParseQrCode(content, parseBle, parseWifi).value;
              r == Resolution(Some(Lock(info)), None, locks[info.macAddress := Lock(info)])
    // an uncached Wi-Fi model with a client token: `createWifiLock` decides, and its lock is registered
    ensures ParseQrCode(content, parseBle, parseWifi).Some? &&
            ParseQrCode(content, parseBle, parseWifi).value.macAddress !in locks &&
            hasWifiTrait(ParseQrCode(content, parseBle, parseWifi).value.model) &&
            awsClientToken.Some? ==>
              var info := ParseQrCode(content, parseBle, parseWifi).value;
              (r.lock, r.ticket) == CreateWifiLock(info, awsClientToken.value, zone, provisionAccepted) &&
              r.locks == (if r.lock.Some? then locks[info.macAddress := r.lock.value] else locks)
    // provisioning refused by the cloud: null and nothing registered
    ensures r.ticket.Some? && !provisionAccepted ==> r.lock.None?
    // a failed resolution leaves the registry unchanged
    ensures r.lock.None? ==> r.locks == locks
    // a provisioning request is only sent for an uncached Wi-Fi model with a token
    ensures r.ticket.Some? ==>
              var info := ParseQrCode(content, parseBle, parseWifi);
              info.Some? && info.value.macAddress !in locks && hasWifiTrait(info.value.model) &&
              awsClientToken.Some? && info.value.serialNumber.Some? &&
              r.ticket.value == TicketFor(info.value, info.value.serialNumber.value, awsClientToken.value, zone)
    // success on an uncached MAC: exactly that entry is added, and it is the returned lock
    ensures r.lock.Some? && r.locks != locks ==>
              var info := ParseQrCode(content, parseBle, parseWifi).value;
              info.macAddress !in locks && r.lock.value == Lock(info) &&
              r.locks == locks[info.macAddress := r.lock.value]
    ensures KeysMatchMacs(locks) ==> KeysMatchMacs(r.locks)
  {
    match ParseQrCode(content, parseBle, parseWifi)
    case None => Resolution(None, None, locks)
    case Some(info) =>
      if info.macAddress in locks then Resolution(Some(locks[info.macAddress]), None, locks)
      else
        var created: (Option<Lock>, Option<ProvisionTicket>) :=
          if hasWifiTrait(info.model) then
            (if awsClientToken.Some? then CreateWifiLock(info, awsClientToken.value, zone, provisionAccepted)
             else (None, None))
          else (Some(Lock(info)), None);
        if created.0.None? then Resolution(None, created.1, locks)
        else Resolution(created.0, created.1, locks[info.macAddress := created.0.value])
  }

  /** Resolving the same code again after a success returns the same lock, sends
      nothing and leaves the registry as it is, whatever the token, zone or cloud say. */
  lemma ResolveIsIdempotent(
    locks: map<string, Lock>,
    content: string,
    parseBle: string -> Option<LockInfo>,
    parseWifi: string -> Option<LockInfo>,
    hasWifiTrait: string -> bool,
    token1: Option<string>, zone1: Zone, accepted1: bool,
    token2: Option<string>, zone2: Zone, accepted2: bool)
    requires ResolveQr(locks, content, parseBle, parseWifi, hasWifiTrait, token1, zone1, accepted1).lock.Some?
    ensures var first := ResolveQr(locks, content, parseBle, parseWifi, hasWifiTrait, token1, zone1, accepted1);
            ResolveQr(first.locks, content, parseBle, parseWifi, hasWifiTrait, token2, zone2, accepted2)
              == Resolution(first.lock, None, first.locks)
  {
  }

  /** A resolution never removes or rewrites an entry and adds at most one key. */
  lemma ResolveOnlyGrows(
    locks: map<string, Lock>,
    content: string,
    parseBle: string -> Option<LockInfo>,
    parseWifi: string -> Option<LockInfo>,
    hasWifiTrait: string -> bool,
    token: Option<string>, zone: Zone, accepted: bool)
    ensures var r := ResolveQr(locks, content, parseBle, parseWifi, hasWifiTrait, token, zone, accepted);
            locks.Keys <= r.locks.Keys && |r.locks.Keys - locks.Keys| <= 1 &&
            forall mac :: mac in locks ==> r.locks[mac] == locks[mac]
  {
    var r := ResolveQr(locks, content, parseBle, parseWifi, hasWifiTrait, token, zone, accepted);
    if r.locks != locks {
      var mac := ParseQrCode(content, parseBle, parseWifi).value.macAddress;
      assert r.locks.Keys - locks.Keys == {mac};
    }
  }

  /** `LockProvider`: the QR parsers and the firmware trait table are collaborators
      fixed at construction; `locks` is the process-wide session cache. */
  class LockProvider {
    /** `LockQRCodeParser.parseQRCodeContent` followed by `LockInfo.from`; None when it throws. */
    const parseQRCodeContent: string -> Option<LockInfo>
    /** `LockQRCodeParser.parseWifiQRCodeContent` followed by `LockInfo.from`; None when it throws. */
    const parseWifiQRCodeContent: string -> Option<LockInfo>
    /** `getFirmwareModelTraits(model).contains(SunionTraits.WiFi)`. */
    const hasWifiTrait: string -> bool

    var locks: map<string, Lock>

    ghost predicate Valid()
      reads this
    {
      KeysMatchMacs(locks)
    }

    constructor (
      parseQRCodeContent: string -> Option<LockInfo>,
      parseWifiQRCodeContent: string -> Option<LockInfo>,
      hasWifiTrait: string -> bool)
      ensures Valid() && locks == map[]
      ensures this.parseQRCodeContent == parseQRCodeContent
      ensures this.parseWifiQRCodeContent == parseWifiQRCodeContent
      ensures this.hasWifiTrait == hasWifiTrait
    {
      this.parseQRCodeContent := parseQRCodeContent;
      this.parseWifiQRCodeContent := parseWifiQRCodeContent;
      this.hasWifiTrait := hasWifiTrait;
      locks := map[];
    }

    /** `getLockByMacAddress`: a repository lookup, never consulting or filling the
        cache (this function has no `reads` clause, so it cannot see `locks`).
        `repository` maps a MAC address to its stored record; a missing key is a
        lookup that failed. */
    function GetLockByMacAddress(macAddress: string, repository: map<string, LockInfo>): (r: Option<Lock>)
      ensures r.Some? <==> macAddress in repository
      ensures r.Some? ==> r.value.info == repository[macAddress]
    {
      if macAddress !in repository then None
      else
        // both branches of the source's trait test call `wifiLock.init`, so the trait does not matter
        Some(Lock(repository[macAddress]))
    }

    /** `getLockByQRCode`. `zone` is the platform time zone and `provisionAccepted`
        the answer of `deviceProvisionCreate`, consulted only when it is called. */
    method GetLockByQRCode(content: string, awsClientToken: Option<string>, zone: Zone, provisionAccepted: bool)
      returns (lock: Option<Lock>, ticket: Option<ProvisionTicket>)
      requires Valid()
      modifies this`locks
      ensures Valid()
      ensures Resolution(lock, ticket, locks) ==
        ResolveQr(old(locks), content, parseQRCodeContent, parseWifiQRCodeContent, hasWifiTrait,
                  awsClientToken, zone, provisionAccepted)
    {
      var parsed := parseQRCodeContent(content);
      if parsed.None? {
        parsed := parseWifiQRCodeContent(content);
      }
      if parsed.None? {
        return None, None;
      }
      var info := parsed.value;
      if info.macAddress in locks {
        return Some(locks[info.macAddress]), None;
      }
      var newLock: Option<Lock> := None;
      ticket := None;
      if hasWifiTrait(info.model) {
        if awsClientToken.Some? {
          var created := CreateWifiLock(info, awsClientToken.value, zone, provisionAccepted);
          newLock, ticket := created.0, created.1;
        }
      } else {
        newLock := Some(Lock(info));
      }
      if newLock.None? {
        return None, ticket;
      }
      locks := locks[info.macAddress := newLock.value];
      return newLock, ticket;
    }

    /** `getLockTypeByQRCode`: null when neither parser accepts the code, otherwise
        whether the model is "wifi" ignoring case. */
    function GetLockTypeByQRCode(content: string): (r: Option<bool>)
      ensures r.None? <==> parseQRCodeContent(content).None? && parseWifiQRCodeContent(content).None?
      ensures r.Some? ==>
                var info := ParseQrCode(content, parseQRCodeContent, parseWifiQRCodeContent).value;
                (r.value <==> EqualsIgnoreCase(info.model, "wifi"))
    {
      match ParseQrCode(content, parseQRCodeContent, parseWifiQRCodeContent)
      case None => None
      case Some(info) => Some(EqualsIgnoreCase(info.model, "wifi"))
    }
  }

  /** Upper-case mapping of ASCII letters; every other character maps to itself. */
  function UpperAscii(c: char): char
  {
    if 'a' <= c <= 'z' then (c as int - 32) as char else c
  }

  /** Kotlin `contentEquals(other, ignoreCase = true)` restricted to ASCII case folding. */
  predicate EqualsIgnoreCase(a: string, b: string)
  {
    |a| == |b| && forall i :: 0 <= i < |a| ==> UpperAscii(a[i]) == UpperAscii(b[i])
  }

  /** "WiFi", "WIFI" and "wifi" are Wi-Fi models; "wifi2" and "wif" are not. */
  lemma WifiModelNames()
    ensures EqualsIgnoreCase("WiFi", "wifi") && EqualsIgnoreCase("WIFI", "wifi")
    ensures !EqualsIgnoreCase("wifi2", "wifi") && !EqualsIgnoreCase("wif", "wifi")
    ensures !EqualsIgnoreCase("wifj", "wifi")
  {
    assert UpperAscii("wifj"[3]) != UpperAscii("wifi"[3]);
  }
}
