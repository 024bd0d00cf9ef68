/**
  The thing record of src/device.c: credentials, data items, the message timer and the
  paths of the configuration files, with the small setters that the other files call.
*/
module Thing {
  import opened KnotTypes

  /** thing.msg_to: no timer object, or one that is armed or has expired. */
  datatype MsgTimer = Absent | Present(armed: bool)

  /** What properties_create_device reads besides data items and credentials. */
  datatype Profile = Profile(name: string, slaveId: int, modbusUrl: string, rabbitUrl: string, userToken: string)

  /** The hash map of data items is a map together with the order in which it is traversed. */
  datatype ThingState = ThingState(
    token: string,
    id: string,
    profile: Profile,
    items: map<int, DataItem>,
    order: seq<int>,
    msgTimer: MsgTimer,
    credentialsPath: string,
    devicePath: string)

  ghost predicate WellKeyed(t: ThingState) {
    && Distinct(t.order)
    && (forall x :: x in t.order <==> x in t.items)
    && (forall x | x in t.items :: t.items[x].sensorId == x)
  }

  /** strncpy into a buffer whose last byte stays zero. */
  function Fitted(s: string, length: nat): string {
    if |s| <= length then s else s[..length]
  }

  function HexDigit(n: nat): char
    requires n < 16
  {
    "0123456789abcdef"[n]
  }

  /** A 64-bit number in hexadecimal without leading zeros, as PRIx64 prints it. */
  function Hex(n: nat): (s: string)
    ensures |s| >= 1
  {
    if n < 16 then [HexDigit(n)] else Hex(n / 16) + [HexDigit(n % 16)]
  }

  function Power16(k: nat): nat {
    if k == 0 then 1 else 16 * Power16(k - 1)
  }

  /** A number below 16^k needs at most k digits; so a 64-bit id has at most sixteen. */
  lemma {:induction false} HexLength(n: nat, k: nat)
    requires k >= 1 && n < Power16(k)
    ensures |Hex(n)| <= k
  {
    if n >= 16 {
      HexLength(n / 16, k - 1);
    }
  }

  lemma IdLength(n: Word64)
    ensures |Hex(n)| <= 16
  {
    assert Power16(8) == 0x1_0000_0000;
    assert Power16(16) == TWO_64;
    HexLength(n, 16);
  }

  function DigitValue(c: char): nat {
    if '0' <= c <= '9' then c as nat - '0' as nat else if 'a' <= c <= 'f' then c as nat - 'a' as nat + 10 else 0
  }

  /** The number that a text denotes in base 16, most significant digit first. */
  function FromHex(s: string): nat {
    if s == [] then 0 else 16 * FromHex(s[..|s| - 1]) + DigitValue(s[|s| - 1])
  }

  lemma HexDigitValue(n: nat)
    requires n < 16
    ensures DigitValue(HexDigit(n)) == n
  {
  }

  /** Reading an id back in base 16 gives the number it was made from. */
  lemma {:induction false} HexReadsBack(n: nat)
    ensures FromHex(Hex(n)) == n
  {
    if n < 16 {
      HexDigitValue(n);
      assert [HexDigit(n)][..0] == [];
    } else {
      HexReadsBack(n / 16);
      HexDigitValue(n % 16);
      assert (Hex(n / 16) + [HexDigit(n % 16)])[..|Hex(n / 16)|] == Hex(n / 16);
    }
  }

  predicate IsHexDigit(c: char) {
    '0' <= c <= '9' || 'a' <= c <= 'f'
  }

  /** An id consists of lower-case hexadecimal digits without a leading zero. */
  lemma {:induction false} HexShape(n: nat)
    ensures forall i | 0 <= i < |Hex(n)| :: IsHexDigit(Hex(n)[i])
    ensures n > 0 ==> Hex(n)[0] != '0'
    ensures n == 0 ==> Hex(n) == "0"
  {
    if n >= 16 {
      HexShape(n / 16);
    }
  }

  /** So distinct numbers give distinct ids. */
  lemma HexInjective(n: nat, m: nat)
    requires Hex(n) == Hex(m)
    ensures n == m
  {
    HexReadsBack(n);
    HexReadsBack(m);
  }

  function WithCredentials(p: Platform, t: ThingState, id: string, token: string): ThingState {
    t.(id := Fitted(id, p.uuidLen), token := Fitted(token, p.tokenLen))
  }

  function WithNewItem(t: ThingState, item: DataItem): ThingState {
    t.(items := t.items[item.sensorId := item], order := t.order + [item.sensorId])
  }

  /** The event settings a config message leaves in memory. */
  function NewEvent(p: Platform, current: EventConfig, config: ConfigMsg): EventConfig {
    if UnregisteredFlag in config.event.flags then current
    else EventConfig(config.event.flags, config.event.timeSec,
                     p.assignLimit(config.schema.valueType, config.event.lower, current.lower),
                     p.assignLimit(config.schema.valueType, config.event.upper, current.upper))
  }

  /** The schema a config message leaves in memory: the name is cut to its buffer. */
  function NewSchema(p: Platform, config: ConfigMsg): Schema {
    config.schema.(name := Fitted(config.schema.name, p.dataNameLen))
  }

  function WithConfig(p: Platform, t: ThingState, config: ConfigMsg): ThingState {
    if config.sensorId !in t.items then t
    else
      var item := t.items[config.sensorId];
      t.(items := t.items[config.sensorId := item.(schema := NewSchema(p, config), event := NewEvent(p, item.event, config))])
  }

  /** Applying a config never adds, removes or renumbers an item, and only touches the schema
      and the event of the item it names. */
  lemma WithConfigFrame(p: Platform, t: ThingState, config: ConfigMsg)
    ensures var t' := WithConfig(p, t, config);
            && t'.items.Keys == t.items.Keys
            && t' == t.(items := t'.items)
            && (forall x | x in t.items && x != config.sensorId :: t'.items[x] == t.items[x])
            && (forall x | x in t.items ::
                  t'.items[x] == t.items[x].(schema := t'.items[x].schema, event := t'.items[x].event))
            && (WellKeyed(t) ==> WellKeyed(t'))
  {
  }

  class KnotThing {
    var token: string
    var id: string
    var profile: Profile
    var items: map<int, DataItem>
    var order: seq<int>
    var msgTimer: MsgTimer
    var credentialsPath: string
    var devicePath: string

    function View(): ThingState
      reads this
    {
      ThingState(token, id, profile, items, order, msgTimer, credentialsPath, devicePath)
    }

    constructor (t: ThingState)
      ensures View() == t
    {
      token, id, profile := t.token, t.id, t.profile;
      items, order, msgTimer := t.items, t.order, t.msgTimer;
      credentialsPath, devicePath := t.credentialsPath, t.devicePath;
    }

    method SetCredentials(p: Platform, newId: string, newToken: string)
      modifies this`id, this`token
      ensures View() == WithCredentials(p, old(View()), newId, newToken)
    {
      id := Fitted(newId, p.uuidLen);
      token := Fitted(newToken, p.tokenLen);
    }

    method ClearId()
      modifies this`id
      ensures View() == old(View()).(id := "")
    {
      id := "";
    }

    method ClearToken()
      modifies this`token
      ensures View() == old(View()).(token := "")
    {
      token := "";
    }

    method SetNewDataItem(sensorId: int, schema: Schema, event: EventConfig, source: ModbusSource)
      modifies this`items, this`order
      ensures View() == WithNewItem(old(View()), DataItem(sensorId, schema, event, 0, 0, source))
    {
      items := items[sensorId := DataItem(sensorId, schema, event, 0, 0, source)];
      order := order + [sensorId];
    }

    method UpdateConfigDataItem(p: Platform, config: ConfigMsg)
      modifies this`items
      ensures View() == WithConfig(p, old(View()), config)
    {
      if config.sensorId !in items {
        return;
      }
      var item := items[config.sensorId];
      var name := Fitted(config.schema.name, p.dataNameLen);
      item := item.(schema := Schema(config.schema.typeId, config.schema.unit, config.schema.valueType, name));
      if UnregisteredFlag !in config.event.flags {
        var lower := p.assignLimit(config.schema.valueType, config.event.lower, item.event.lower);
        var upper := p.assignLimit(config.schema.valueType, config.event.upper, item.event.upper);
        item := item.(event := EventConfig(config.event.flags, config.event.timeSec, lower, upper));
      }
      items := items[config.sensorId := item];
    }
  }
}
