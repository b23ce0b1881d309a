/** The pure parts of the chaincode call library (utils/marbles_cc_lib.js): ledger key
    construction, the owner-name key, the classification of query answers and the
    invoke callbacks that hand the generated id back to the caller. The network client
    itself is not modelled; its answers are parameters. */
module CcLib {
  import opened Wrappers

  // ---------------------------------------------------------------------------------
  // Random text and zero padding
  // ---------------------------------------------------------------------------------

  /** The characters from `lo` to `hi`, in order. */
  function CharRange(lo: char, hi: char): (r: string)
    requires lo <= hi <= '~'
    ensures |r| == hi as int - lo as int + 1
    ensures forall i | 0 <= i < |r| :: r[i] as int == lo as int + i
    ensures forall c | c in r :: lo <= c <= hi
  {
    seq(hi as int - lo as int + 1, i requires 0 <= i <= hi as int - lo as int => (lo as int + i) as char)
  }

  /** The characters `randStr` draws from, in the order of the source's literal
      "abcdefghijkmnpqrstuvwxyz0123456789ABCDEFGHJKMNPQRSTUVWXYZ": digits and Latin
      letters without the look-alikes l, o, I, L and O. */
  const Alphabet: string :=
    CharRange('a', 'k') + CharRange('m', 'n') + CharRange('p', 'z') + CharRange('0', '9') +
    CharRange('A', 'H') + CharRange('J', 'K') + CharRange('M', 'N') + CharRange('P', 'Z')

  lemma AlphabetShape()
    ensures |Alphabet| == 57
    ensures 'l' !in Alphabet && 'o' !in Alphabet
    ensures 'I' !in Alphabet && 'L' !in Alphabet && 'O' !in Alphabet
  {
  }

  /** Draws are the values of `Math.floor(Math.random() * 57)`: indices into Alphabet. */
  predicate ValidPicks(picks: seq<nat>) {
    forall i | 0 <= i < |picks| :: picks[i] < |Alphabet|
  }

  /** The text `randStr` builds from the given draws, one character per draw. */
  function RandText(picks: seq<nat>): (text: string)
    requires ValidPicks(picks)
    ensures |text| == |picks|
    ensures forall i | 0 <= i < |text| :: text[i] == Alphabet[picks[i]]
  {
    if picks == [] then ""
    else RandText(picks[..|picks| - 1]) + [Alphabet[picks[|picks| - 1]]]
  }

  /** `randStr(length)`: appends one alphabet character per random draw. */
  method RandStr(length: nat, picks: seq<nat>) returns (text: string)
    requires |picks| == length && ValidPicks(picks)
    ensures text == RandText(picks)
    ensures |text| == length && forall i | 0 <= i < |text| :: text[i] in Alphabet
  {
    text := "";
    var i := 0;
    while i < length
      invariant 0 <= i <= length
      invariant text == RandText(picks[..i])
    {
      assert picks[..i + 1][..i] == picks[..i];
      text := text + [Alphabet[picks[i]]];
      i := i + 1;
    }
    assert picks[..length] == picks;
  }

  function Zeros(k: nat): (z: string)
    ensures |z| == k && forall i | 0 <= i < k :: z[i] == '0'
  {
    seq(k, _ => '0')
  }

  function Max(a: int, b: int): int {
    if a < b then b else a
  }

  /** What `leftPad(str, length)` returns: `str` itself when already long enough,
      otherwise `str` preceded by just enough zeros to reach `length`. */
  function PadLeft(s: string, length: nat): (r: string)
    ensures |r| == Max(|s|, length)
    ensures r[|r| - |s|..] == s
    ensures forall i | 0 <= i < |r| - |s| :: r[i] == '0'
    ensures |s| >= length ==> r == s
  {
    if |s| >= length then s else Zeros(length - |s|) + s
  }

  /** `leftPad`: prepends one '0' per missing character. */
  method LeftPad(s: string, length: nat) returns (str: string)
    ensures str == PadLeft(s, length)
  {
    str := s;
    var i := |s|;
    while i < length
      invariant |s| <= i
      invariant i <= Max(|s|, length)
      invariant str == Zeros(i - |s|) + s
    {
      assert "0" + Zeros(i - |s|) == Zeros(i + 1 - |s|);
      str := "0" + str;
      i := i + 1;
    }
  }

  // ---------------------------------------------------------------------------------
  // Decimal rendering of a timestamp
  // ---------------------------------------------------------------------------------

  function DigitChar(d: nat): (c: char)
    requires d < 10
    ensures '0' <= c <= '9'
  {
    (('0' as int) + d) as char
  }

  /** How JavaScript renders a non-negative integer timestamp when it is added to a string. */
  function Decimal(n: nat): (r: string)
    ensures |r| >= 1 && AllDigits(r)
  {
    if n < 10 then [DigitChar(n)] else Decimal(n / 10) + [DigitChar(n % 10)]
  }

  predicate AllDigits(s: string) {
    forall i | 0 <= i < |s| :: '0' <= s[i] <= '9'
  }

  /** The number a string of decimal digits denotes. */
  function DigitsValue(s: string): nat
    requires AllDigits(s)
  {
    if s == [] then 0
    else 10 * DigitsValue(s[..|s| - 1]) + (s[|s| - 1] as int - '0' as int)
  }

  /** Reading the rendered digits back gives the number. */
  lemma {:induction false} DecimalRoundTrip(n: nat)
    ensures DigitsValue(Decimal(n)) == n
  {
    if n >= 10 {
      var r := Decimal(n);
      assert r[..|r| - 1] == Decimal(n / 10);
      DecimalRoundTrip(n / 10);
    }
  }

  function Pow10(k: nat): (p: nat)
    ensures p >= 1
  {
    if k == 0 then 1 else 10 * Pow10(k - 1)
  }

  /** A number with k digits is rendered with exactly k characters. */
  lemma {:induction false} DecimalLength(n: nat, k: nat)
    requires 1 <= k && Pow10(k - 1) <= n < Pow10(k)
    ensures |Decimal(n)| == k
  {
    if k > 1 {
      var p := Pow10(k - 2);
      assert Pow10(k - 1) == 10 * p;
      assert n >= 10;
      assert p <= n / 10 < Pow10(k - 1);
      DecimalLength(n / 10, k - 1);
    }
  }

  // ---------------------------------------------------------------------------------
  // Ledger keys
  // ---------------------------------------------------------------------------------

  /** Width the timestamp-plus-random part of a key is padded to. */
  const KeyWidth: nat := 19
  /** Number of random characters appended to the timestamp. */
  const RandomSuffixLength: nat := 5

  /** The clock reading (`Date.now()`) and the five random draws one key is made from. */
  datatype KeyDraw = KeyDraw(now: nat, picks: seq<nat>)

  predicate ValidDraw(d: KeyDraw) {
    |d.picks| == RandomSuffixLength && ValidPicks(d.picks)
  }

  /** A ledger key: a one-letter prefix, then `leftPad(Date.now() + randStr(5), 19)`. */
  function IdKey(prefix: char, d: KeyDraw): (key: string)
    requires ValidDraw(d)
    ensures |key| == 1 + Max(|Decimal(d.now)| + RandomSuffixLength, KeyWidth)
    ensures key[0] == prefix
  {
    [prefix] + PadLeft(Decimal(d.now) + RandText(d.picks), KeyWidth)
  }

  /** Key of a new owner (`init_owner`). */
  function OwnerKey(d: KeyDraw): string
    requires ValidDraw(d)
  {
    IdKey('o', d)
  }

  /** Key of a new customer asset (`init_customer`). */
  function CustomerKey(d: KeyDraw): string
    requires ValidDraw(d)
  {
    IdKey('m', d)
  }

  /** Smallest and one past the largest millisecond timestamp with 13 digits
      (from September 2001 to November 2286). */
  const ThirteenDigitsMin: nat := 1_000_000_000_000
  const ThirteenDigitsEnd: nat := 10_000_000_000_000

  /** For a 13-digit clock reading a key is 20 characters: the prefix, one padding
      zero, the 13 digits of the timestamp and the 5 random characters. */
  lemma IdKeyShape(prefix: char, d: KeyDraw)
    requires ValidDraw(d) && ThirteenDigitsMin <= d.now < ThirteenDigitsEnd
    ensures var key := IdKey(prefix, d);
      && |key| == 20
      && key[0] == prefix
      && key[1] == '0'
      && key[2..15] == Decimal(d.now)
      && key[15..] == RandText(d.picks)
      && key == [prefix, '0'] + Decimal(d.now) + RandText(d.picks)
  {
    assert Pow10(12) == ThirteenDigitsMin && Pow10(13) == ThirteenDigitsEnd;
    DecimalLength(d.now, 13);
    var body := Decimal(d.now) + RandText(d.picks);
    var padded := PadLeft(body, KeyWidth);
    assert padded == "0" + body;
    assert IdKey(prefix, d) == [prefix] + "0" + Decimal(d.now) + RandText(d.picks);
  }

  /** `a` sorts strictly before `b` character by character: they agree up to some
      position where `a` has the smaller character. */
  predicate LexBefore(a: string, b: string) {
    exists k | 0 <= k < |a| && k < |b| :: a[..k] == b[..k] && a[k] < b[k]
  }

  /** Two digit strings of the same length denote the same number only when equal. */
  lemma {:induction false} DigitsValueInjective(a: string, b: string)
    requires AllDigits(a) && AllDigits(b) && |a| == |b|
    requires DigitsValue(a) == DigitsValue(b)
    ensures a == b
  {
    if a != [] {
      var n := |a| - 1;
      DigitsValueInjective(a[..n], b[..n]);
      assert a == a[..n] + [a[n]] && b == b[..n] + [b[n]];
    }
  }

  /** Among digit strings of one length, the smaller number sorts first. */
  lemma {:induction false} SmallerValueSortsFirst(a: string, b: string)
    requires AllDigits(a) && AllDigits(b) && |a| == |b|
    requires DigitsValue(a) < DigitsValue(b)
    ensures LexBefore(a, b)
  {
    var n := |a| - 1;
    var a', b' := a[..n], b[..n];
    if DigitsValue(a') == DigitsValue(b') {
      DigitsValueInjective(a', b');
      assert a[..n] == b[..n] && a[n] < b[n];
    } else {
      assert DigitsValue(a') < DigitsValue(b');
      SmallerValueSortsFirst(a', b');
      var k :| 0 <= k < |a'| && k < |b'| && a'[..k] == b'[..k] && a'[k] < b'[k];
      assert a[..k] == a'[..k] && b[..k] == b'[..k];
      assert a[k] == a'[k] && b[k] == b'[k];
    }
  }

  /** Order decided inside a middle part survives a shared front and any tails. */
  lemma SharedPrefixKeepsOrder(front: string, a: string, b: string, x: string, y: string)
    requires LexBefore(a, b)
    ensures LexBefore(front + a + x, front + b + y)
  {
    var k :| 0 <= k < |a| && k < |b| && a[..k] == b[..k] && a[k] < b[k];
    var u, v := front + a + x, front + b + y;
    assert u[..|front| + k] == front + a[..k];
    assert v[..|front| + k] == front + b[..k];
    assert u[|front| + k] == a[k] && v[|front| + k] == b[k];
  }

  /** Keys drawn at increasing 13-digit clock readings sort in the same order, whatever
      the random characters: the zero-padded timestamp decides the order. */
  lemma KeysFollowTheClock(prefix: char, d1: KeyDraw, d2: KeyDraw)
    requires ValidDraw(d1) && ThirteenDigitsMin <= d1.now < ThirteenDigitsEnd
    requires ValidDraw(d2) && ThirteenDigitsMin <= d2.now < ThirteenDigitsEnd
    requires d1.now < d2.now
    ensures LexBefore(IdKey(prefix, d1), IdKey(prefix, d2))
  {
    IdKeyShape(prefix, d1);
    IdKeyShape(prefix, d2);
    DecimalRoundTrip(d1.now);
    DecimalRoundTrip(d2.now);
    SmallerValueSortsFirst(Decimal(d1.now), Decimal(d2.now));
    SharedPrefixKeepsOrder([prefix, '0'], Decimal(d1.now), Decimal(d2.now), RandText(d1.picks), RandText(d2.picks));
  }

  // ---------------------------------------------------------------------------------
  // Owner names
  // ---------------------------------------------------------------------------------

  /** `toLowerCase` on one character, for the ASCII letters. */
  function Lower(c: char): (l: char)
    ensures !('A' <= l <= 'Z')
    ensures !('A' <= c <= 'Z') ==> l == c
  {
    if 'A' <= c <= 'Z' then (c as int + 32) as char else c
  }

  function ToLower(s: string): (r: string)
    ensures |r| == |s| && forall i | 0 <= i < |s| :: r[i] == Lower(s[i])
  {
    seq(|s|, i requires 0 <= i < |s| => Lower(s[i]))
  }

  /** `build_owner_name`: the owner's key name, the lower-cased username, a dot and the company. */
  function BuildOwnerName(username: string, company: string): (name: string)
    ensures |name| == |username| + 1 + |company|
    ensures forall i | 0 <= i < |username| :: name[i] == Lower(username[i])
    ensures name[|username|] == '.'
    ensures name[|username| + 1..] == company
  {
    ToLower(username) + "." + company
  }

  /** Within one company, two usernames give the same owner name exactly when they
      agree up to letter case. */
  lemma OwnerNameCaseInsensitive(u1: string, u2: string, company: string)
    ensures BuildOwnerName(u1, company) == BuildOwnerName(u2, company) <==> ToLower(u1) == ToLower(u2)
  {
    var n1, n2 := BuildOwnerName(u1, company), BuildOwnerName(u2, company);
    if n1 == n2 {
      assert |u1| == |u2|;
      assert ToLower(u1) == n1[..|u1|];
      assert ToLower(u2) == n2[..|u2|];
    }
  }

  // ---------------------------------------------------------------------------------
  // Query classification
  // ---------------------------------------------------------------------------------

  /** An error value as the callbacks see it: a plain string, or an object `{error: ...}`. */
  datatype JsError = Text(msg: string) | ErrorObject(error: string)

  /** JavaScript truthiness of an error value: an empty text is falsy, an object never is. */
  predicate ErrorTruthy(e: JsError) {
    e.Text? ==> e.msg != ""
  }

  /** The error the library reports when the peer answered but the chaincode did not. */
  const ChaincodeNotFound: JsError := ErrorObject("chaincode not found")

  /** The `parsed` field of a query answer, as far as the checks look at it:
      null/undefined, a value `isNaN` rejects (non-numeric text, plain objects), or a
      value it accepts (numbers, numeric text). */
  datatype Parsed = NullValue | NotANumber | Numeric

  /** The outcome of one `query_chaincode` call. */
  datatype QueryOutcome = QueryFailed(err: JsError) | QueryAnswered(parsed: Parsed)

  /** `check_if_already_instantiated`: None stands for `cb(null, resp)`, the chaincode is there. */
  function CheckIfAlreadyInstantiated(q: QueryOutcome): (notInstantiated: Option<JsError>)
    ensures q.QueryFailed? ==> notInstantiated == Some(q.err)
    ensures q.QueryAnswered? ==> (notInstantiated == None <==> q.parsed == Numeric)
    ensures q.QueryAnswered? && q.parsed != Numeric ==> notInstantiated == Some(ChaincodeNotFound)
  {
    match q
    case QueryFailed(e) => Some(e)
    case QueryAnswered(NullValue) => Some(ChaincodeNotFound)
    case QueryAnswered(NotANumber) => Some(ChaincodeNotFound)
    case QueryAnswered(Numeric) => None
  }

  /** `check_version`: like the instantiation check, but only a null answer counts as missing. */
  function CheckVersion(q: QueryOutcome): (err: Option<JsError>)
    ensures q.QueryFailed? ==> err == Some(q.err)
    ensures q.QueryAnswered? ==> (err == None <==> q.parsed != NullValue)
    ensures q.QueryAnswered? && q.parsed == NullValue ==> err == Some(ChaincodeNotFound)
  {
    match q
    case QueryFailed(e) => Some(e)
    case QueryAnswered(p) => if p == NullValue then Some(ChaincodeNotFound) else None
  }

  /** The version check accepts every answer the instantiation check accepts, and one more. */
  lemma VersionCheckIsLaxer(q: QueryOutcome)
    ensures CheckIfAlreadyInstantiated(q) == None ==> CheckVersion(q) == None
    ensures CheckVersion(QueryAnswered(NotANumber)) == None
    ensures CheckIfAlreadyInstantiated(QueryAnswered(NotANumber)) != None
  {
  }

  // ---------------------------------------------------------------------------------
  // Invokes: argument vectors and the id handed back
  // ---------------------------------------------------------------------------------

  /** The chaincode function and the ordered argument vector of one invoke. */
  datatype InvokeRequest = InvokeRequest(ccFunction: string, ccArgs: seq<string>)

  /** An invoke response object: its `id` property and its other properties. */
  datatype InvokeResponse = InvokeResponse(id: Option<string>, properties: map<string, string>)

  /** What an invoke callback passes on: the error unchanged and the response. */
  datatype InvokeReply = InvokeReply(err: Option<JsError>, resp: InvokeResponse)

  /** The invoke callbacks of `create_a_customer`, `register_owner` and `disable_owner`:
      a missing response becomes `{}`, and its `id` is set to the first argument. */
  function PassIdBack(request: InvokeRequest, err: Option<JsError>, resp: Option<InvokeResponse>): (reply: InvokeReply)
    requires |request.ccArgs| > 0
    ensures reply.err == err
    ensures reply.resp.id == Some(request.ccArgs[0])
    ensures resp.Some? ==> reply.resp.properties == resp.value.properties
    ensures resp.None? ==> reply.resp.properties == map[]
  {
    var r := if resp.None? then InvokeResponse(None, map[]) else resp.value;
    InvokeReply(err, r.(id := Some(request.ccArgs[0])))
  }

  /** An invoke as issued, with the reply the caller receives. */
  datatype InvokeCall = InvokeCall(request: InvokeRequest, reply: InvokeReply)

  /** `register_owner`: `init_owner` with `[id, owner, company]`. */
  function RegisterOwner(owner: string, company: string, d: KeyDraw,
                         err: Option<JsError>, resp: Option<InvokeResponse>): (call: InvokeCall)
    requires ValidDraw(d)
    ensures call.request.ccFunction == "init_owner"
    ensures |call.request.ccArgs| == 3
    ensures call.request.ccArgs[1] == owner && call.request.ccArgs[2] == company
    ensures call.reply.err == err
    ensures call.reply.resp.id == Some(call.request.ccArgs[0]) == Some(OwnerKey(d))
  {
    var request := InvokeRequest("init_owner", [OwnerKey(d), owner, company]);
    InvokeCall(request, PassIdBack(request, err, resp))
  }

  /** The arguments `create_a_customer` receives from the start-up code. */
  datatype CustomerArgs = CustomerArgs(color: string, size: string, ownerId: string, authCompany: string)

  /** `create_a_customer`: `init_customer` with `[id, color, size, owner_id, auth_company]`. */
  function CreateACustomer(args: CustomerArgs, d: KeyDraw,
                           err: Option<JsError>, resp: Option<InvokeResponse>): (call: InvokeCall)
    requires ValidDraw(d)
    ensures call.request.ccFunction == "init_customer"
    ensures |call.request.ccArgs| == 5
    ensures call.request.ccArgs[1] == args.color && call.request.ccArgs[2] == args.size
    ensures call.request.ccArgs[3] == args.ownerId && call.request.ccArgs[4] == args.authCompany
    ensures call.reply.err == err
    ensures call.reply.resp.id == Some(call.request.ccArgs[0]) == Some(CustomerKey(d))
  {
    var request := InvokeRequest("init_customer", [CustomerKey(d), args.color, args.size, args.ownerId, args.authCompany]);
    InvokeCall(request, PassIdBack(request, err, resp))
  }

  /** `disable_owner`: `disable_owner` with `[owner_id, auth_company]`. */
  function DisableOwner(ownerId: string, authCompany: string,
                        err: Option<JsError>, resp: Option<InvokeResponse>): (call: InvokeCall)
    ensures call.request.ccFunction == "disable_owner"
    ensures call.request.ccArgs == [ownerId, authCompany]
    ensures call.reply.err == err
    ensures call.reply.resp.id == Some(ownerId)
  {
    var request := InvokeRequest("disable_owner", [ownerId, authCompany]);
    InvokeCall(request, PassIdBack(request, err, resp))
  }

  /** The id an owner creation hands back is a well-formed 20-character owner key,
      whatever the invoke reported, for every 13-digit clock reading. */
  lemma RegisteredOwnerId(owner: string, company: string, d: KeyDraw,
                          err: Option<JsError>, resp: Option<InvokeResponse>)
    requires ValidDraw(d) && ThirteenDigitsMin <= d.now < ThirteenDigitsEnd
    ensures var id := RegisterOwner(owner, company, d, err, resp).reply.resp.id;
      && id.Some? && |id.value| == 20 && id.value[0] == 'o'
      && id.value[2..15] == Decimal(d.now)
  {
    IdKeyShape('o', d);
  }
}
