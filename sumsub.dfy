/** The Sumsub API client: request builders that all fill in one shared request config,
    and the request signer that adds the timestamp and signature headers. The HMAC digest,
    `JSON.stringify` and the clock are parameters. */
module Sumsub {
  import opened Wrappers
  import opened Text
  import opened Seqs

  const BaseUrl := "https://api.sumsub.com"

  /** A JavaScript value as it appears in a request body. */
  datatype Value =
    | Undefined
    | Null
    | Bool(b: bool)
    | Num(n: int)
    | Str(s: string)
    | Arr(items: seq<Value>)
    | Obj(fields: seq<(string, Value)>)

  /** JavaScript truthiness (`||` picks its right operand when the left is falsy). */
  predicate JsTruthy(v: Value)
  {
    match v
    case Undefined => false
    case Null => false
    case Bool(b) => b
    case Num(n) => n != 0
    case Str(s) => s != ""
    case Arr(_) => true
    case Obj(_) => true
  }

  /** `v || fallback`. */
  function Or(v: Value, fallback: Value): (r: Value)
    ensures JsTruthy(v) ==> r == v
    ensures !JsTruthy(v) ==> r == fallback
  {
    if JsTruthy(v) then v else fallback
  }

  /** Property access on a plain object given as a map: a missing key reads `undefined`. */
  function Prop(o: map<string, Value>, key: string): (r: Value)
    ensures key !in o ==> r == Undefined
    ensures key in o ==> r == o[key]
  {
    if key in o then o[key] else Undefined
  }

  // ---------------------------------------------------------------------------
  // encodeURIComponent

  /** The characters `encodeURIComponent` leaves as they are. */
  predicate Unreserved(c: char)
  {
    'A' <= c <= 'Z' || 'a' <= c <= 'z' || '0' <= c <= '9' ||
    c == '-' || c == '_' || c == '.' || c == '!' || c == '~' || c == '*' || c == '\'' || c == '(' || c == ')'
  }

  function UpperHexDigit(n: nat): (c: char)
    requires n < 16
    ensures '0' <= c <= '9' || 'A' <= c <= 'F'
  {
    if n < 10 then ('0' as int + n) as char else ('A' as int + n - 10) as char
  }

  /** The UTF-8 encoding of one Unicode scalar value. */
  function Utf8(c: char): (r: seq<nat>)
    ensures 1 <= |r| <= 4 && forall i :: 0 <= i < |r| ==> r[i] < 256
  {
    var n := c as int;
    if n < 0x80 then [n]
    else if n < 0x800 then [0xC0 + n / 64, 0x80 + n % 64]
    else if n < 0x1_0000 then [0xE0 + n / 4096, 0x80 + (n / 64) % 64, 0x80 + n % 64]
    else [0xF0 + n / 262144, 0x80 + (n / 4096) % 64, 0x80 + (n / 64) % 64, 0x80 + n % 64]
  }

  /** `%XX` for each byte, with upper-case hexadecimal digits. */
  function PercentBytes(bytes: seq<nat>): (r: string)
    requires forall i :: 0 <= i < |bytes| ==> bytes[i] < 256
    ensures |r| == 3 * |bytes|
    ensures forall i :: 0 <= i < |r| ==> r[i] == '%' || Unreserved(r[i])
  {
    if |bytes| == 0 then ""
    else ['%', UpperHexDigit(bytes[0] / 16), UpperHexDigit(bytes[0] % 16)] + PercentBytes(bytes[1..])
  }

  function EncodeChar(c: char): (r: string)
    ensures forall i :: 0 <= i < |r| ==> r[i] == '%' || Unreserved(r[i])
  {
    if Unreserved(c) then [c] else PercentBytes(Utf8(c))
  }

  /** `encodeURIComponent`. */
  function EncodeUriComponent(s: string): string
  {
    if |s| == 0 then "" else EncodeUriComponent(s[..|s| - 1]) + EncodeChar(s[|s| - 1])
  }

  /** The encoded text holds only unreserved characters and `%` escapes, so it cannot end
      the query parameter it is put in (no `&`, `#`, `=` or space); text made of
      unreserved characters is unchanged. */
  lemma EncodeUriComponentOutcome(s: string)
    ensures var r := EncodeUriComponent(s);
      (forall i :: 0 <= i < |r| ==> r[i] == '%' || Unreserved(r[i])) &&
      '&' !in r && '#' !in r && '=' !in r && ' ' !in r &&
      ((forall i :: 0 <= i < |s| ==> Unreserved(s[i])) ==> r == s)
  {
    var r := EncodeUriComponent(s);
    EncodedCharacters(s);
    forall k | 0 <= k < |r| ensures r[k] != '&' && r[k] != '#' && r[k] != '=' && r[k] != ' ' {
      assert r[k] == '%' || Unreserved(r[k]);
    }
    if forall i :: 0 <= i < |s| ==> Unreserved(s[i]) {
      EncodeUnreservedUnchanged(s);
    }
  }

  lemma {:induction false} EncodedCharacters(s: string)
    ensures forall i :: 0 <= i < |EncodeUriComponent(s)| ==> EncodeUriComponent(s)[i] == '%' || Unreserved(EncodeUriComponent(s)[i])
  {
    if |s| > 0 {
      var init := s[..|s| - 1];
      EncodedCharacters(init);
      var r, a, b := EncodeUriComponent(s), EncodeUriComponent(init), EncodeChar(s[|s| - 1]);
      assert r == a + b;
      forall i | 0 <= i < |r| ensures r[i] == '%' || Unreserved(r[i]) {
        if i < |a| {
          assert r[i] == a[i];
        } else {
          assert r[i] == b[i - |a|];
        }
      }
    }
  }

  lemma {:induction false} EncodeUnreservedUnchanged(s: string)
    requires forall i :: 0 <= i < |s| ==> Unreserved(s[i])
    ensures EncodeUriComponent(s) == s
  {
    if |s| > 0 {
      var init := s[..|s| - 1];
      assert forall i :: 0 <= i < |init| ==> Unreserved(init[i]) by {
        forall i | 0 <= i < |init| ensures Unreserved(init[i]) { assert init[i] == s[i]; }
      }
      EncodeUnreservedUnchanged(init);
      assert EncodeChar(s[|s| - 1]) == [s[|s| - 1]];
      assert s == init + [s[|s| - 1]];
    }
  }

  // ---------------------------------------------------------------------------
  // Headers and signature

  const TsHeader := "X-App-Access-Ts"
  const SigHeader := "X-App-Access-Sig"

  /** The headers of a request without a body. */
  function ReadHeaders(appToken: string): map<string, string>
  {
    map["Accept" := "application/json", "X-App-Token" := appToken]
  }

  /** The headers of a request with a JSON body. */
  function JsonHeaders(appToken: string): map<string, string>
  {
    ReadHeaders(appToken)["Content-Type" := "application/json"]
  }

  /** The text fed to the HMAC: the timestamp in seconds, the upper-cased method, the URL
      and, when there is one, the body text. */
  function SignedMessage(ts: nat, httpMethod: string, url: string, data: Option<Value>, stringify: Value -> string): (r: string)
    ensures StartsWith(r, NatToString(ts) + Upper(httpMethod) + url)
    ensures data.None? ==> r == NatToString(ts) + Upper(httpMethod) + url
  {
    NatToString(ts) + Upper(httpMethod) + url + (if data.Some? then stringify(data.value) else "")
  }

  /** For requests without a body the message determines the timestamp and the URL
      (given a method that does not start with a digit, as `get` and `post` do), and the
      case of the method never matters. */
  lemma SignedMessageOutcome(ts: nat, ts': nat, httpMethod: string, url: string, url': string, stringify: Value -> string)
    requires httpMethod != "" && !IsDigit(httpMethod[0])
    ensures SignedMessage(ts, httpMethod, url, None, stringify) == SignedMessage(ts, Upper(httpMethod), url, None, stringify)
    ensures SignedMessage(ts, httpMethod, url, None, stringify) == SignedMessage(ts', httpMethod, url', None, stringify) ==>
      ts == ts' && url == url'
  {
    UpperIdempotent(httpMethod);
    var u := Upper(httpMethod);
    var a := NatToString(ts);
    var b := NatToString(ts');
    if a + u + url == b + u + url' {
      assert (u + url)[0] == u[0] && (u + url')[0] == u[0];
      assert a + u + url == a + (u + url) && b + u + url' == b + (u + url');
      if |a| < |b| {
        NumberThenDigit(a, b, u + url, u + url');
      } else if |b| < |a| {
        NumberThenDigit(b, a, u + url', u + url);
      } else {
        assert a == (a + u + url)[..|a|] == b;
        NatToStringInjective(ts, ts');
        assert url == (a + u + url)[|a| + |u|..] == url';
      }
    }
  }

  /** When a shorter number followed by `rest` equals a longer one followed by `rest'`,
      `rest` starts with a digit. */
  lemma NumberThenDigit(a: string, b: string, rest: string, rest': string)
    requires |a| < |b| && AllDigits(a) && AllDigits(b) && |rest| > 0
    requires a + rest == b + rest'
    ensures IsDigit(rest[0])
  {
    assert (a + rest)[|a|] == rest[0];
    assert (b + rest')[|a|] == b[|a|];
  }

  // ---------------------------------------------------------------------------
  // The shared request config

  /** The fields of `companyInfo` in the order the body lists them. */
  const CompanyInfoKeys: seq<string> := ["companyName", "registrationNumber", "country", "legalAddress",
    "incorporatedOn", "type", "email", "phone", "website", "taxId"]

  predicate Defined(f: (string, Value)) { f.1 != Undefined }

  /** The `companyInfo` record after its undefined fields are deleted. */
  function CompanyInfoFields(companyInfo: map<string, Value>): seq<(string, Value)>
  {
    Filter(seq(|CompanyInfoKeys|, i requires 0 <= i < |CompanyInfoKeys| => (CompanyInfoKeys[i], Prop(companyInfo, CompanyInfoKeys[i]))), Defined)
  }

  /** The deletion loop of `createCompanyApplicant` over the record's keys. */
  method RemoveUndefined(fields: seq<(string, Value)>) returns (kept: seq<(string, Value)>)
    ensures kept == Filter(fields, Defined)
  {
    kept := [];
    for i := 0 to |fields|
      invariant kept == Filter(fields[..i], Defined)
    {
      assert fields[..i + 1][..i] == fields[..i];
      if fields[i].1 != Undefined {
        kept := kept + [fields[i]];
      }
    }
    assert fields[..|fields|] == fields;
  }

  /** The company record keeps, in order, exactly the listed fields that are defined, each
      with its value. */
  lemma CompanyInfoOutcome(companyInfo: map<string, Value>)
    ensures var r := CompanyInfoFields(companyInfo);
      forall k, v :: (k, v) in r <==> k in CompanyInfoKeys && k in companyInfo && v == companyInfo[k] && v != Undefined
  {
    var all := seq(|CompanyInfoKeys|, i requires 0 <= i < |CompanyInfoKeys| => (CompanyInfoKeys[i], Prop(companyInfo, CompanyInfoKeys[i])));
    FilterExact(all, Defined);
    forall k, v ensures (k, v) in all <==> k in CompanyInfoKeys && Prop(companyInfo, k) == v {
      if k in CompanyInfoKeys {
        var i :| 0 <= i < |CompanyInfoKeys| && CompanyInfoKeys[i] == k;
        assert all[i] == (k, Prop(companyInfo, k));
      }
    }
  }

  /** The body of `addBeneficialOwner`: positions default to shareholder and the type to
      ubo when not given. */
  function BeneficiaryBody(b: map<string, Value>): Value
  {
    Obj([("applicant", Obj([("externalUserId", Prop(b, "externalUserId")), ("type", Str("individual")),
                            ("info", Obj([("firstName", Prop(b, "firstName")), ("lastName", Prop(b, "lastName")),
                                          ("dob", Prop(b, "dob")), ("country", Prop(b, "country")),
                                          ("nationality", Prop(b, "nationality"))]))])),
         ("positions", Or(Prop(b, "positions"), Arr([Str("shareholder")]))),
         ("type", Or(Prop(b, "type"), Str("ubo"))),
         ("shareSize", Prop(b, "shareSize")),
         ("inRegistry", Prop(b, "inRegistry"))])
  }

  /** `positions` and `type` are the caller's when truthy and the defaults otherwise; the
      beneficiary is always an individual. */
  lemma BeneficiaryDefaults(b: map<string, Value>)
    ensures var body := BeneficiaryBody(b);
      body.Obj? && body.fields[1].0 == "positions" && body.fields[2].0 == "type" &&
      (body.fields[1].1 == Arr([Str("shareholder")]) <==> !JsTruthy(Prop(b, "positions")) || Prop(b, "positions") == Arr([Str("shareholder")])) &&
      (body.fields[2].1 == Str("ubo") <==> !JsTruthy(Prop(b, "type")) || Prop(b, "type") == Str("ubo")) &&
      JsTruthy(body.fields[1].1) && JsTruthy(body.fields[2].1) &&
      body.fields[0].1.Obj? && body.fields[0].1.fields[1] == ("type", Str("individual"))
  {
  }

  /** The module's one request config. Every builder overwrites its method, URL, headers
      and body and returns the object itself; `baseURL` is set once. */
  class Config {
    /** `SUMSUB_APP_TOKEN`. */
    const appToken: string
    var baseURL: string
    /** `method`. */
    var httpMethod: string
    var url: string
    var headers: map<string, string>
    /** The body before `JSON.stringify`; `None` for `null`. */
    var data: Option<Value>

    /** The module's initialisation: only `baseURL` is set. */
    constructor(appToken: string)
      ensures this.appToken == appToken && baseURL == BaseUrl
      ensures httpMethod == "" && url == "" && headers == map[] && data.None?
    {
      this.appToken := appToken;
      baseURL := BaseUrl;
      httpMethod := "";
      url := "";
      headers := map[];
      data := None;
    }

    /** Every builder's final assignments. */
    method Fill(httpMethod': string, url': string, headers': map<string, string>, data': Option<Value>)
      modifies this
      ensures httpMethod == httpMethod' && url == url' && headers == headers' && data == data'
      ensures baseURL == old(baseURL)
    {
      httpMethod := httpMethod';
      url := url';
      headers := headers';
      data := data';
    }

    /** `createSignature`: adds the timestamp and the hex HMAC of the signed message to the
        headers and returns the same config. */
    method CreateSignature(ts: nat, hmacHex: string -> string, stringify: Value -> string) returns (c: Config)
      modifies this
      ensures c == this
      ensures headers == old(headers)[TsHeader := NatToString(ts)]
                                     [SigHeader := hmacHex(SignedMessage(ts, httpMethod, url, data, stringify))]
      ensures httpMethod == old(httpMethod) && url == old(url) && data == old(data) && baseURL == old(baseURL)
    {
      var message := NatToString(ts) + Upper(httpMethod) + url;
      if data.Some? {
        message := message + stringify(data.value);
      }
      headers := headers[TsHeader := NatToString(ts)];
      headers := headers[SigHeader := hmacHex(message)];
      c := this;
    }

    /** `createApplicant`. */
    method CreateApplicant(externalUserId: Value, levelName: string) returns (c: Config)
      modifies this
      ensures c == this && baseURL == old(baseURL)
      ensures httpMethod == "post" && url == "/resources/applicants?levelName=" + EncodeUriComponent(levelName)
      ensures headers == JsonHeaders(appToken) && data == Some(Obj([("externalUserId", externalUserId)]))
    {
      Fill("post", "/resources/applicants?levelName=" + EncodeUriComponent(levelName), JsonHeaders(appToken),
           Some(Obj([("externalUserId", externalUserId)])));
      c := this;
    }

    /** `getApplicantStatus`. */
    method GetApplicantStatus(applicantId: string) returns (c: Config)
      modifies this
      ensures c == this && baseURL == old(baseURL)
      ensures httpMethod == "get" && url == "/resources/applicants/" + applicantId + "/status"
      ensures headers == ReadHeaders(appToken) && data.None?
    {
      Fill("get", "/resources/applicants/" + applicantId + "/status", ReadHeaders(appToken), None);
      c := this;
    }

    /** `getApplicantData`. */
    method GetApplicantData(externalUserId: string) returns (c: Config)
      modifies this
      ensures c == this && baseURL == old(baseURL)
      ensures httpMethod == "get" && url == "/resources/applicants/-;externalUserId=" + externalUserId + "/one"
      ensures headers == ReadHeaders(appToken) && data.None?
    {
      Fill("get", "/resources/applicants/-;externalUserId=" + externalUserId + "/one", ReadHeaders(appToken), None);
      c := this;
    }

    /** `createAccessToken`; `None` for an omitted argument, which takes the default
        (the individual level and ten minutes). */
    method CreateAccessToken(externalUserId: Value, levelName: Option<string>, ttlInSecs: Option<int>) returns (c: Config)
      modifies this
      ensures c == this && baseURL == old(baseURL)
      ensures httpMethod == "post" && url == "/resources/accessTokens/sdk" && headers == JsonHeaders(appToken)
      ensures data == Some(Obj([("userId", externalUserId),
                                ("levelName", Str(if levelName.Some? then levelName.value else "basic-kyc-level")),
                                ("ttlInSecs", Num(if ttlInSecs.Some? then ttlInSecs.value else 600))]))
    {
      var level := if levelName.Some? then levelName.value else "basic-kyc-level";
      var ttl := if ttlInSecs.Some? then ttlInSecs.value else 600;
      Fill("post", "/resources/accessTokens/sdk", JsonHeaders(appToken),
           Some(Obj([("userId", externalUserId), ("levelName", Str(level)), ("ttlInSecs", Num(ttl))])));
      c := this;
    }

    /** `createKYBAccessToken`: an access token whose default level is the business one. */
    method CreateKybAccessToken(externalUserId: Value, levelName: Option<string>, ttlInSecs: Option<int>) returns (c: Config)
      modifies this
      ensures c == this && baseURL == old(baseURL)
      ensures httpMethod == "post" && url == "/resources/accessTokens/sdk" && headers == JsonHeaders(appToken)
      ensures data == Some(Obj([("userId", externalUserId),
                                ("levelName", Str(if levelName.Some? then levelName.value else "basic-kyb-level")),
                                ("ttlInSecs", Num(if ttlInSecs.Some? then ttlInSecs.value else 600))]))
    {
      c := CreateAccessToken(externalUserId, Some(if levelName.Some? then levelName.value else "basic-kyb-level"), ttlInSecs);
    }

    /** `createCompanyApplicant`: the company record without its undefined fields. */
    method CreateCompanyApplicant(externalUserId: Value, levelName: string, companyInfo: map<string, Value>) returns (c: Config)
      modifies this
      ensures c == this && baseURL == old(baseURL)
      ensures httpMethod == "post" && url == "/resources/applicants?levelName=" + EncodeUriComponent(levelName)
      ensures headers == JsonHeaders(appToken)
      ensures data == Some(Obj([("externalUserId", externalUserId), ("type", Str("company")),
                                ("info", Obj([("companyInfo", Obj(CompanyInfoFields(companyInfo)))]))]))
    {
      var fields := seq(|CompanyInfoKeys|, i requires 0 <= i < |CompanyInfoKeys| => (CompanyInfoKeys[i], Prop(companyInfo, CompanyInfoKeys[i])));
      var kept := RemoveUndefined(fields);
      Fill("post", "/resources/applicants?levelName=" + EncodeUriComponent(levelName), JsonHeaders(appToken),
           Some(Obj([("externalUserId", externalUserId), ("type", Str("company")),
                     ("info", Obj([("companyInfo", Obj(kept))]))])));
      c := this;
    }

    /** `addBeneficialOwner`. */
    method AddBeneficialOwner(applicantId: string, beneficiaryInfo: map<string, Value>) returns (c: Config)
      modifies this
      ensures c == this && baseURL == old(baseURL)
      ensures httpMethod == "post" && url == "/resources/applicants/" + applicantId + "/info/companyInfo/beneficiaries"
      ensures headers == JsonHeaders(appToken) && data == Some(BeneficiaryBody(beneficiaryInfo))
    {
      Fill("post", "/resources/applicants/" + applicantId + "/info/companyInfo/beneficiaries", JsonHeaders(appToken),
           Some(BeneficiaryBody(beneficiaryInfo)));
      c := this;
    }

    /** `getBeneficialOwners`. */
    method GetBeneficialOwners(applicantId: string) returns (c: Config)
      modifies this
      ensures c == this && baseURL == old(baseURL)
      ensures httpMethod == "get" && url == "/resources/applicants/" + applicantId + "/info/companyInfo/beneficiaries"
      ensures headers == ReadHeaders(appToken) && data.None?
    {
      Fill("get", "/resources/applicants/" + applicantId + "/info/companyInfo/beneficiaries", ReadHeaders(appToken), None);
      c := this;
    }

    /** `getCompanyApplicantData`. */
    method GetCompanyApplicantData(externalUserId: string) returns (c: Config)
      modifies this
      ensures c == this && baseURL == old(baseURL)
      ensures httpMethod == "get" && url == "/resources/applicants/-;type=company&externalUserId=" + externalUserId + "/one"
      ensures headers == ReadHeaders(appToken) && data.None?
    {
      Fill("get", "/resources/applicants/-;type=company&externalUserId=" + externalUserId + "/one", ReadHeaders(appToken), None);
      c := this;
    }
  }

  /** Two requests built one after the other are the same object, which holds only the
      second: the body of the first is gone once the second is a read. */
  method BuildTwo(config: Config, externalUserId: Value, levelName: string, applicantId: string)
    returns (first: Config, second: Config)
    modifies config
    ensures first == second == config
    ensures config.httpMethod == "get" && config.data.None?
  {
    first := config.CreateApplicant(externalUserId, levelName);
    second := config.GetApplicantStatus(applicantId);
  }

  /** Signing a read request sent to the applicant-status endpoint covers exactly the
      timestamp, `GET` and the path. */
  method SignStatusRequest(config: Config, applicantId: string, ts: nat, hmacHex: string -> string, stringify: Value -> string)
    returns (c: Config)
    modifies config
    ensures c == config
    ensures SigHeader in c.headers && TsHeader in c.headers
    ensures c.headers[SigHeader] == hmacHex(NatToString(ts) + "GET" + "/resources/applicants/" + applicantId + "/status")
    ensures c.headers[TsHeader] == NatToString(ts)
  {
    c := config.GetApplicantStatus(applicantId);
    assert Upper("get") == "GET" by { assert Upper("get")[0] == 'G' && Upper("get")[1] == 'E' && Upper("get")[2] == 'T'; }
    var path := "/resources/applicants/" + applicantId + "/status";
    assert SignedMessage(ts, "get", path, None, stringify) == NatToString(ts) + "GET" + "/resources/applicants/" + applicantId + "/status";
    c := c.CreateSignature(ts, hmacHex, stringify);
  }
}
