/** The configuration getters of utils/connection_profile_lib/parts/helper.js. The
    configuration file itself is not modelled: its top level and its `customers`
    section are maps from field name to a JavaScript value. */
module ConfigHelper {
  import opened Wrappers

  /** The JavaScript values a configuration field can hold, as far as these getters look. */
  datatype JsValue =
    | Undefined
    | Null
    | Bool(b: bool)
    | Num(n: int)
    | Str(s: string)
    | List(items: seq<JsValue>)

  /** JavaScript truthiness: `undefined`, `null`, `false`, `0` and `""` are falsy; every
      array, the empty one included, is truthy. */
  predicate Truthy(v: JsValue) {
    match v
    case Undefined => false
    case Null => false
    case Bool(b) => b
    case Num(n) => n != 0
    case Str(s) => s != ""
    case List(_) => true
  }

  /** `cp.getCustomersField(name)`: a field of the `customers` section, `undefined` when absent. */
  function CustomersField(customers: map<string, JsValue>, name: string): (v: JsValue)
    ensures name !in customers ==> v == Undefined
    ensures name in customers ==> v == customers[name]
  {
    if name in customers then customers[name] else Undefined
  }

  /** `getCustomerUsernamesConfig`. */
  function GetCustomerUsernamesConfig(customers: map<string, JsValue>): JsValue {
    CustomersField(customers, "usernames")
  }

  /** `getCompanyNameFromFile`. */
  function GetCompanyNameFromFile(customers: map<string, JsValue>): JsValue {
    CustomersField(customers, "company")
  }

  /** `getCustomersPort`. */
  function GetCustomersPort(customers: map<string, JsValue>): JsValue {
    CustomersField(customers, "port")
  }

  /** The three getters hand back their own field unchanged, and changing any other
      field of the section leaves what each of them returns as it was. */
  lemma GettersPassThrough(customers: map<string, JsValue>, other: string, v: JsValue)
    requires other != "usernames" && other != "company" && other != "port"
    ensures "usernames" in customers ==> GetCustomerUsernamesConfig(customers) == customers["usernames"]
    ensures "company" in customers ==> GetCompanyNameFromFile(customers) == customers["company"]
    ensures "port" in customers ==> GetCustomersPort(customers) == customers["port"]
    ensures var changed := customers[other := v];
      && GetCustomerUsernamesConfig(changed) == GetCustomerUsernamesConfig(customers)
      && GetCompanyNameFromFile(changed) == GetCompanyNameFromFile(customers)
      && GetCustomersPort(changed) == GetCustomersPort(customers)
  {
  }

  /** `getEventsSetting`: the top-level `use_events` value when truthy, otherwise `false`. */
  function GetEventsSetting(config: map<string, JsValue>): (setting: JsValue)
    ensures Truthy(setting) <==> "use_events" in config && Truthy(config["use_events"])
    ensures Truthy(setting) ==> setting == config["use_events"]
    ensures !Truthy(setting) ==> setting == Bool(false)
  {
    if "use_events" in config && Truthy(config["use_events"]) then config["use_events"] else Bool(false)
  }

  /** Seconds used when `keep_alive_secs` is missing or falsy. */
  const DefaultKeepAliveSecs: int := 30

  /** `getKeepAliveMs`: the keep-alive period in milliseconds; None stands for a truthy
      text or array setting, whose numeric conversion is not modelled. */
  function GetKeepAliveMs(customers: map<string, JsValue>): (ms: Option<int>)
    ensures var sec := CustomersField(customers, "keep_alive_secs");
      && (!Truthy(sec) ==> ms == Some(DefaultKeepAliveSecs * 1000))
      && (sec.Num? && sec.n != 0 ==> ms == Some(sec.n * 1000))
      && (sec == Bool(true) ==> ms == Some(1000))
      && (ms == None <==> Truthy(sec) && (sec.Str? || sec.List?))
  {
    var sec := CustomersField(customers, "keep_alive_secs");
    if !Truthy(sec) then Some(DefaultKeepAliveSecs * 1000)
    else match sec
      case Num(n) => Some(n * 1000)
      case Bool(_) => Some(1000)
      case _ => None
  }

  /** For whole-number settings the period is a whole number of seconds, and a
      configured positive number of seconds gives that many thousand milliseconds; an
      unset period is 30000 ms. Fractional settings are not modelled (`Num` holds an
      integer): 1.5 would give 1500 ms. */
  lemma KeepAliveWholeSeconds(customers: map<string, JsValue>)
    ensures var ms := GetKeepAliveMs(customers);
      ms.Some? ==> ms.value % 1000 == 0
    ensures var sec := CustomersField(customers, "keep_alive_secs");
      sec.Num? && sec.n > 0 ==> GetKeepAliveMs(customers).value / 1000 == sec.n
    ensures "keep_alive_secs" !in customers ==> GetKeepAliveMs(customers) == Some(30000)
  {
  }
}
