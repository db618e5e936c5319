/**
 * The order-submission gate of the `/` handler: read and strip the three
 * form fields, collect the validation errors in order, check the quantity
 * against the service's bounds when possible, and only then send the `add`
 * request and read its reply.
 */
module Order {
  import opened Wrappers
  import opened JsonValue
  import Text
  import Gateway
  import Catalogue

  /** The submitted form; a field that was not sent is None. */
  datatype OrderForm = OrderForm(serviceId: Option<string>, link: Option<string>, quantity: Option<string>)

  /** The entries of the handler's `errors` list. */
  datatype OrderError =
    | BadServiceId
    | BadLink
    | BadQuantity
    | MissingApiKey
    | OutOfRange(service: string, min: int, max: int)

  /** The position each kind of error takes in the list. */
  function Rank(e: OrderError): nat {
    match e
    case BadServiceId => 0
    case BadLink => 1
    case BadQuantity => 2
    case MissingApiKey => 3
    case OutOfRange(_, _, _) => 4
  }

  /** Errors appear in the fixed order service id, link, quantity, API key, range, each at most once. */
  predicate InRankOrder(errors: seq<OrderError>) {
    forall i, j :: 0 <= i < j < |errors| ==> Rank(errors[i]) < Rank(errors[j])
  }

  /** The text the handler shows for each error. */
  function Message(e: OrderError): string {
    match e
    case BadServiceId => "Service ID debe ser numérico."
    case BadLink => "El link debe empezar por http(s)://"
    case BadQuantity => "Cantidad debe ser un entero positivo."
    case MissingApiKey => "Configura la variable PEAKERR_API_KEY en el servidor."
    case OutOfRange(sid, mn, mx) =>
      "La cantidad para el servicio " + sid + " debe estar entre "
      + Text.IntToString(mn) + " y " + Text.IntToString(mx) + "."
  }

  /** `(request.form.get(name) or "").strip()`. */
  function Field(x: Option<string>): string {
    Text.Strip(OrEmpty(x))
  }

  /** int(text) succeeds and is greater than zero. */
  predicate IsPositiveInt(text: string) {
    match Text.ParseInt(text)
    case Some(n) => n > 0
    case None => false
  }

  /** Every field check passes and an API key is configured. */
  predicate FieldsPass(form: OrderForm, apiKey: string) {
    && Text.IsDigits(Field(form.serviceId))
    && Text.LooksLikeUrl(Some(Field(form.link)))
    && IsPositiveInt(Field(form.quantity))
    && apiKey != ""
  }

  /** The checks that need no catalogue, in the handler's order; `qty` is 0 whenever the quantity is rejected. */
  method CheckFields(sid: string, link: string, qtyRaw: string, apiKey: string)
    returns (errors: seq<OrderError>, qty: int)
    ensures InRankOrder(errors)
    ensures forall e :: e in errors ==> !e.OutOfRange?
    ensures BadServiceId in errors <==> !Text.IsDigits(sid)
    ensures BadLink in errors <==> !Text.LooksLikeUrl(Some(link))
    ensures BadQuantity in errors <==> !IsPositiveInt(qtyRaw)
    ensures MissingApiKey in errors <==> apiKey == ""
    ensures errors == [] <==> Text.IsDigits(sid) && Text.LooksLikeUrl(Some(link)) && IsPositiveInt(qtyRaw) && apiKey != ""
    ensures BadQuantity !in errors ==> Text.ParseInt(qtyRaw) == Some(qty) && qty > 0
    ensures BadQuantity in errors ==> qty == 0
    ensures errors == FieldErrors(sid, link, qtyRaw, apiKey)
  {
    errors, qty := AppendErrors(Text.IsDigits(sid), Text.LooksLikeUrl(Some(link)), Text.ParseInt(qtyRaw), apiKey != "");
  }

  /**
   * Lines 85-99 of the handler given the verdict of each check: an error
   * is appended for each failed check, in order, and int(quantity) must be
   * greater than zero.
   */
  method AppendErrors(serviceIdOk: bool, linkOk: bool, parsed: Option<int>, keySet: bool)
    returns (errors: seq<OrderError>, qty: int)
    ensures InRankOrder(errors)
    ensures forall e :: e in errors ==> !e.OutOfRange?
    ensures BadServiceId in errors <==> !serviceIdOk
    ensures BadLink in errors <==> !linkOk
    ensures BadQuantity in errors <==> !(parsed.Some? && parsed.value > 0)
    ensures MissingApiKey in errors <==> !keySet
    ensures errors == [] <==> serviceIdOk && linkOk && parsed.Some? && parsed.value > 0 && keySet
    ensures BadQuantity !in errors ==> parsed == Some(qty) && qty > 0
    ensures BadQuantity in errors ==> qty == 0
    ensures errors == Flag(!serviceIdOk, BadServiceId) + Flag(!linkOk, BadLink)
                      + Flag(!(parsed.Some? && parsed.value > 0), BadQuantity) + Flag(!keySet, MissingApiKey)
  {
    errors := [];
    if !serviceIdOk {
      errors := errors + [BadServiceId];
    }
    if !linkOk {
      errors := errors + [BadLink];
    }
    assert errors == Flag(!serviceIdOk, BadServiceId) + Flag(!linkOk, BadLink);
    if parsed.Some? && parsed.value > 0 {
      qty := parsed.value;
    } else {
      qty := 0;
      errors := errors + [BadQuantity];
    }
    if !keySet {
      errors := errors + [MissingApiKey];
    }
    var quantityOk := parsed.Some? && parsed.value > 0;
    assert errors == Flag(!serviceIdOk, BadServiceId) + Flag(!linkOk, BadLink)
                     + Flag(!quantityOk, BadQuantity) + Flag(!keySet, MissingApiKey);
    FlaggedMembers(serviceIdOk, linkOk, quantityOk, keySet);
    FlaggedInRankOrder(serviceIdOk, linkOk, quantityOk, keySet);
  }

  /**
   * The error list of the four field checks as one expression: each failed
   * check in the handler's order. `FlaggedMembers`, `FlaggedInRankOrder` and
   * `EmptyFormErrors` say what it holds.
   */
  function FieldErrors(sid: string, link: string, qtyRaw: string, apiKey: string): seq<OrderError> {
    Flag(!Text.IsDigits(sid), BadServiceId) + Flag(!Text.LooksLikeUrl(Some(link)), BadLink)
    + Flag(!IsPositiveInt(qtyRaw), BadQuantity) + Flag(apiKey == "", MissingApiKey)
  }

  /** An empty form with no API key configured gets all four field errors, in order. */
  lemma EmptyFormErrors()
    ensures FieldErrors(Field(None), Field(None), Field(None), "") == [BadServiceId, BadLink, BadQuantity, MissingApiKey]
  {
    assert Field(None) == "" by {
      assert Text.TrimStart("") == "";
    }
    assert !Text.LooksLikeUrl(Some(""));
  }

  /** A quantity of more than 4300 digits makes int() raise, so it gets the quantity error. */
  lemma OverlongQuantityRejected(sid: string, link: string, qtyRaw: string, apiKey: string)
    requires Text.IsDigits(qtyRaw) && |qtyRaw| > Text.MaxStrDigits
    ensures !IsPositiveInt(qtyRaw) && BadQuantity in FieldErrors(sid, link, qtyRaw, apiKey)
  {
    Text.TooManyDigitsRejected(qtyRaw);
    FlaggedMembers(Text.IsDigits(sid), Text.LooksLikeUrl(Some(link)), false, apiKey != "");
  }

  /** `[e]` when the check failed, `[]` when it passed. */
  function Flag(failed: bool, e: OrderError): seq<OrderError> {
    if failed then [e] else []
  }

  /** The four checks' errors, concatenated in the handler's order, hold exactly the failed checks. */
  lemma FlaggedMembers(a: bool, b: bool, c: bool, d: bool)
    ensures var errors := Flag(!a, BadServiceId) + Flag(!b, BadLink) + Flag(!c, BadQuantity) + Flag(!d, MissingApiKey);
            && (forall e :: e in errors ==> !e.OutOfRange?)
            && (BadServiceId in errors <==> !a) && (BadLink in errors <==> !b)
            && (BadQuantity in errors <==> !c) && (MissingApiKey in errors <==> !d)
            && (errors == [] <==> a && b && c && d)
  {
  }

  /** The four checks' errors, concatenated in the handler's order, are in rank order. */
  lemma FlaggedInRankOrder(a: bool, b: bool, c: bool, d: bool)
    ensures InRankOrder(Flag(!a, BadServiceId) + Flag(!b, BadLink) + Flag(!c, BadQuantity) + Flag(!d, MissingApiKey))
  {
    var p1 := Flag(!a, BadServiceId);
    assert InRankOrder(p1) && RanksBelow(p1, Rank(BadLink));
    var p2 := p1 + Flag(!b, BadLink);
    FlagExtends(p1, !b, BadLink);
    var p3 := p2 + Flag(!c, BadQuantity);
    FlagExtends(p2, !c, BadQuantity);
    FlagExtends(p3, !d, MissingApiKey);
  }

  /** Every entry ranks below `k`. */
  predicate RanksBelow(errors: seq<OrderError>, k: nat) {
    forall i :: 0 <= i < |errors| ==> Rank(errors[i]) < k
  }

  /** Appending the entry for one check, whose rank exceeds every earlier one, keeps the list in rank order. */
  lemma FlagExtends(p: seq<OrderError>, failed: bool, e: OrderError)
    requires InRankOrder(p) && RanksBelow(p, Rank(e))
    ensures InRankOrder(p + Flag(failed, e)) && RanksBelow(p + Flag(failed, e), Rank(e) + 1)
  {
    if failed {
      var r := p + [e];
      forall i, j | 0 <= i < j < |r| ensures Rank(r[i]) < Rank(r[j]) {
        assert r[i] == p[i];
      }
    } else {
      assert p + Flag(failed, e) == p;
    }
  }

  /** What the handler ends with. */
  datatype Outcome =
    | Rejected(errors: seq<OrderError>)         // the error list is shown, nothing is ordered
    | ServerError                               // get_service_limits raised outside any try
    | Submitted(verdict: Gateway.AddVerdict)    // the `add` request went out

  /** The payload of the `add` call. */
  function AddPayload(sid: string, link: string, qty: int): map<string, Json> {
    map["action" := JStr("add"), "service" := JStr(sid), "link" := JStr(link), "quantity" := JInt(qty)]
  }

  /** The `add` request carries the configured key beside the four order fields, and nothing else. */
  lemma AddRequestFields(apiKey: string, sid: string, link: string, qty: int)
    ensures var data := Gateway.KeyedData(apiKey, AddPayload(sid, link, qty));
            && data.Keys == {"key", "action", "service", "link", "quantity"}
            && data["key"] == JStr(apiKey) && data["action"] == JStr("add")
            && data["service"] == JStr(sid) && data["link"] == JStr(link) && data["quantity"] == JInt(qty)
  {
    assert "key" !in AddPayload(sid, link, qty);
  }

  /**
   * The POST branch of index. `servicesReply` and `addReply` are what the
   * two upstream calls would yield; `fetched` says whether the service list
   * was requested and `sent` is the data of the `add` request, if one went out.
   */
  method SubmitOrder(form: OrderForm, apiKey: string, servicesReply: Gateway.Transport, addReply: Gateway.Transport)
    returns (errors: seq<OrderError>, fetched: bool, sent: Option<map<string, Json>>, outcome: Outcome)
    ensures InRankOrder(errors)
    ensures BadServiceId in errors <==> !Text.IsDigits(Field(form.serviceId))
    ensures BadLink in errors <==> !Text.LooksLikeUrl(Some(Field(form.link)))
    ensures BadQuantity in errors <==> !IsPositiveInt(Field(form.quantity))
    ensures MissingApiKey in errors <==> apiKey == ""
    ensures fetched <==> FieldsPass(form, apiKey)
    ensures outcome.Rejected? <==> errors != []
    ensures outcome.Rejected? ==> outcome.errors == errors
    ensures sent.Some? <==> outcome.Submitted?
    ensures !FieldsPass(form, apiKey) ==> outcome == Rejected(errors) && forall e :: e in errors ==> !e.OutOfRange?
    ensures !FieldsPass(form, apiKey) ==>
              errors == FieldErrors(Field(form.serviceId), Field(form.link), Field(form.quantity), apiKey)
    ensures FieldsPass(form, apiKey) ==>
              var sid := Field(form.serviceId);
              var qty := Text.ParseInt(Field(form.quantity)).value;
              match Catalogue.Lookup(Gateway.GetServices(apiKey, servicesReply), sid)
              case Crash => outcome == ServerError && errors == []
              case NotFound => errors == [] && outcome.Submitted?
              case Found(mn, mx) =>
                if qty < mn || qty > mx then errors == [OutOfRange(sid, mn, mx)]
                else errors == [] && outcome.Submitted?
    ensures outcome.Submitted? ==>
              var qty := Text.ParseInt(Field(form.quantity)).value;
              && sent == Some(Gateway.KeyedData(apiKey, AddPayload(Field(form.serviceId), Field(form.link), qty)))
              && outcome.verdict == Gateway.AddOutcome(Gateway.PostResult(apiKey, addReply))
  {
    var sid := Field(form.serviceId);
    var link := Field(form.link);
    var qtyRaw := Field(form.quantity);
    var qty;
    errors, qty := CheckFields(sid, link, qtyRaw, apiKey);
    fetched, sent := false, None;
    if errors != [] {
      outcome := Rejected(errors);
      return;
    }
    assert FieldsPass(form, apiKey);
    fetched := true;
    var catalogue := Gateway.GetServices(apiKey, servicesReply);
    var limits := Catalogue.GetServiceLimits(catalogue, sid);
    if limits.Crash? {
      outcome := ServerError;
      return;
    }
    if limits.Found? && (qty < limits.min || qty > limits.max) {
      errors := errors + [OutOfRange(sid, limits.min, limits.max)];
      outcome := Rejected(errors);
      return;
    }
    var result;
    sent, result := Gateway.ApiPost(apiKey, AddPayload(sid, link, qty), addReply);
    outcome := Submitted(Gateway.AddOutcome(result));
  }

  /**
   * The ordering and membership facts pin the list down: two lists in rank
   * order with the same members are the same list.
   */
  lemma {:induction false} RankOrderDetermines(a: seq<OrderError>, b: seq<OrderError>)
    requires InRankOrder(a) && InRankOrder(b)
    requires forall e :: e in a <==> e in b
    ensures a == b
  {
    if a != [] {
      assert a[0] in b;
    }
    if b != [] {
      assert b[0] in a;
    }
    if a != [] && b != [] {
      var i :| 0 <= i < |b| && b[i] == a[0];
      var j :| 0 <= j < |a| && a[j] == b[0];
      assert i == 0 && j == 0 by {
        assert Rank(a[0]) <= Rank(a[j]);
        assert Rank(b[0]) <= Rank(b[i]);
      }
      forall e ensures e in a[1..] <==> e in b[1..] {
        if e in a[1..] {
          var k :| 0 <= k < |a| - 1 && a[1..][k] == e;
          assert Rank(a[0]) < Rank(a[k + 1]) && a[k + 1] in a;
          var m :| 0 <= m < |b| && b[m] == e;
          assert m != 0;
          assert b[1..][m - 1] == e;
        }
        if e in b[1..] {
          var k :| 0 <= k < |b| - 1 && b[1..][k] == e;
          assert Rank(b[0]) < Rank(b[k + 1]) && b[k + 1] in b;
          var m :| 0 <= m < |a| && a[m] == e;
          assert m != 0;
          assert a[1..][m - 1] == e;
        }
      }
      RankOrderDetermines(a[1..], b[1..]);
    }
  }
}
