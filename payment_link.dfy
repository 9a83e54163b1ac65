/**
 * `generatePaymentLink` of index.js: the deep link a payment request carries,
 * chosen by the app tag. The parsers below read a link back the way the
 * receiving app splits it; they are the partner against which the formatter's
 * output is stated.
 */
module PaymentLink {
  import opened Wrappers
  import opened JsValues
  import opened UriComponent

  const UpiPrefix := "upi://pay?pa="
  const PaypalPrefix := "https://www.paypal.me/"

  /** The tags `switch (app)` recognises; the comparison is strict, so only these strings match. */
  predicate IsPaymentApp(app: JsValue) {
    app == Str("upi") || app == Str("paypal")
  }

  /**
   * When `generatePaymentLink` throws: a recognised tag meets a nullish
   * account, or the amount or one of the account members its template reads
   * cannot be converted to text.
   */
  function LinkThrows(app: JsValue, amount: JsValue, account: JsValue): (throws: bool)
    ensures throws ==> IsPaymentApp(app)
    ensures IsPaymentApp(app) && (IsNullish(account) || HasOwnToString(amount)) ==> throws
  {
    && IsPaymentApp(app)
    && (|| IsNullish(account)
        || HasOwnToString(amount)
        || (app == Str("upi") && (HasOwnToString(Member(account, "vpa")) || HasOwnToString(Member(account, "name"))))
        || (app == Str("paypal") && HasOwnToString(Member(account, "username"))))
  }

  /**
   * The link for `app`, or `None` where the source throws. Account members
   * are read without a check, so a missing one shows up as "undefined"; only
   * the UPI payee name is percent-encoded. An unrecognised tag gives the
   * empty string.
   */
  function GeneratePaymentLink(app: JsValue, amount: JsValue, account: JsValue): (link: Option<string>)
    ensures link.None? <==> LinkThrows(app, amount, account)
    ensures link == Some("") <==> !IsPaymentApp(app)
  {
    if app == Str("upi") then
      if IsNullish(account) then None
      else
        var payee := ToText(Member(account, "vpa"));
        var name := ToText(Member(account, "name"));
        var amt := ToText(amount);
        if payee.None? || name.None? || amt.None? then
          None
        else
          Some(UpiPrefix + payee.value + "&pn=" + EncodeUriComponent(name.value) + "&am=" + amt.value)
    else if app == Str("paypal") then
      if IsNullish(account) then None
      else
        var username := ToText(Member(account, "username"));
        var amt := ToText(amount);
        if username.None? || amt.None? then
          None
        else
          Some(PaypalPrefix + username.value + "/" + amt.value)
    else
      Some("")
  }

  /** `s` cut at the first `sep`, if `s` contains one. */
  function SplitAtFirst(s: string, sep: char): (r: Option<(string, string)>)
    ensures r.Some? ==> sep !in r.value.0 && s == r.value.0 + [sep] + r.value.1
    ensures r.None? ==> sep !in s
  {
    if s == [] then None
    else if s[0] == sep then Some(([], s[1..]))
    else match SplitAtFirst(s[1..], sep)
      case None => None
      case Some((before, after)) => Some(([s[0]] + before, after))
  }

  /** The query parameters of a UPI link, the name decoded. */
  datatype UpiParams = UpiParams(payee: string, name: string, amount: string)

  /** The path segments of a PayPal.Me link. */
  datatype PaypalParams = PaypalParams(username: string, amount: string)

  /**
   * Reads `upi://pay?pa=<payee>&pn=<name>&am=<amount>`: the payee runs to the
   * first `&`, the encoded name to the next one, and the amount is the rest.
   */
  function ParseUpiLink(link: string): Option<UpiParams> {
    if !(UpiPrefix <= link) then None
    else ParseUpiQuery(link[|UpiPrefix|..])
  }

  /** The part of a UPI link after `pa=`. */
  function ParseUpiQuery(query: string): Option<UpiParams> {
    var payeeCut := SplitAtFirst(query, '&');
    if payeeCut.None? || !("pn=" <= payeeCut.value.1) then None
    else
      var nameCut := SplitAtFirst(payeeCut.value.1[3..], '&');
      if nameCut.None? || !("am=" <= nameCut.value.1) then None
      else
        var name := DecodeUriComponent(nameCut.value.0);
        if name.None? then None
        else Some(UpiParams(payeeCut.value.0, name.value, nameCut.value.1[3..]))
  }

  /** Reads `https://www.paypal.me/<username>/<amount>`, the username running to the first `/`. */
  function ParsePaypalLink(link: string): Option<PaypalParams> {
    if !(PaypalPrefix <= link) then None
    else match SplitAtFirst(link[|PaypalPrefix|..], '/')
      case None => None
      case Some((username, amount)) => Some(PaypalParams(username, amount))
  }

  /** Cutting `a + [sep] + b` at its first `sep` gives back `a` and `b` when `a` holds no `sep`. */
  lemma {:induction false} SplitAtFirstOfJoin(a: string, sep: char, b: string)
    requires sep !in a
    ensures SplitAtFirst(a + [sep] + b, sep) == Some((a, b))
  {
    if a == [] {
      assert a + [sep] + b == [sep] + b;
    } else {
      assert a[0] in a;
      assert (a + [sep] + b)[1..] == a[1..] + [sep] + b;
      SplitAtFirstOfJoin(a[1..], sep, b);
      assert [a[0]] + a[1..] == a;
    }
  }

  /** What `ParseUpiQuery` returns once its three cuts are known. */
  lemma ParseUpiQueryCuts(query: string, payee: string, tail: string, enc: string, tail2: string, name: string)
    requires SplitAtFirst(query, '&') == Some((payee, tail)) && "pn=" <= tail
    requires SplitAtFirst(tail[3..], '&') == Some((enc, tail2)) && "am=" <= tail2
    requires DecodeUriComponent(enc) == Some(name)
    ensures ParseUpiQuery(query) == Some(UpiParams(payee, name, tail2[3..]))
  {
  }

  lemma PrefixOfJoin(p: string, s: string)
    ensures p <= p + s
    ensures (p + s)[|p|..] == s
  {
  }

  /** Reading back a UPI query assembled from a payee without `&`, an encoded name and an amount. */
  lemma ParseUpiQueryOfParts(payee: string, name: string, amount: string)
    requires '&' !in payee
    ensures ParseUpiQuery(payee + "&pn=" + EncodeUriComponent(name) + "&am=" + amount)
         == Some(UpiParams(payee, name, amount))
  {
    var enc := EncodeUriComponent(name);
    var tail2 := "am=" + amount;
    var tail := "pn=" + (enc + ['&'] + tail2);
    var query := payee + ['&'] + tail;
    assert query == payee + "&pn=" + enc + "&am=" + amount;
    SplitAtFirstOfJoin(payee, '&', tail);
    PrefixOfJoin("pn=", enc + ['&'] + tail2);
    assert '&' !in enc by {
      assert !IsUriSafe('&');
    }
    SplitAtFirstOfJoin(enc, '&', tail2);
    PrefixOfJoin("am=", amount);
    DecodeEncode(name);
    ParseUpiQueryCuts(query, payee, tail, enc, tail2, name);
  }

  lemma ParseUpiOfParts(payee: string, name: string, amount: string)
    requires '&' !in payee
    ensures ParseUpiLink(UpiPrefix + payee + "&pn=" + EncodeUriComponent(name) + "&am=" + amount)
         == Some(UpiParams(payee, name, amount))
  {
    var query := payee + "&pn=" + EncodeUriComponent(name) + "&am=" + amount;
    var link := UpiPrefix + payee + "&pn=" + EncodeUriComponent(name) + "&am=" + amount;
    assert link == UpiPrefix + query;
    assert link[|UpiPrefix|..] == query;
    ParseUpiQueryOfParts(payee, name, amount);
  }

  /**
   * A UPI link carries the payee and the amount verbatim and the name
   * recoverably, provided the payee contains no `&` (the amount, last, may
   * contain anything).
   */
  lemma UpiLinkRoundTrip(amount: JsValue, account: JsValue, payee: string, name: string, amt: string)
    requires !IsNullish(account)
    requires ToText(Member(account, "vpa")) == Some(payee) && '&' !in payee
    requires ToText(Member(account, "name")) == Some(name)
    requires ToText(amount) == Some(amt)
    ensures var link := GeneratePaymentLink(Str("upi"), amount, account);
      link.Some? && ParseUpiLink(link.value) == Some(UpiParams(payee, name, amt))
  {
    assert GeneratePaymentLink(Str("upi"), amount, account)
        == Some(UpiPrefix + payee + "&pn=" + EncodeUriComponent(name) + "&am=" + amt);
    ParseUpiOfParts(payee, name, amt);
  }

  /** A PayPal link carries username and amount verbatim, provided the username contains no `/`. */
  lemma PaypalLinkRoundTrip(amount: JsValue, account: JsValue, username: string, amt: string)
    requires !IsNullish(account)
    requires ToText(Member(account, "username")) == Some(username) && '/' !in username
    requires ToText(amount) == Some(amt)
    ensures var link := GeneratePaymentLink(Str("paypal"), amount, account);
      link.Some? && ParsePaypalLink(link.value) == Some(PaypalParams(username, amt))
  {
    var link := PaypalPrefix + username + "/" + amt;
    assert GeneratePaymentLink(Str("paypal"), amount, account) == Some(link);
    assert link[|PaypalPrefix|..] == username + ['/'] + amt;
    SplitAtFirstOfJoin(username, '/', amt);
  }

  /**
   * Without that proviso the link is ambiguous: a username holding `/` moves
   * its tail into the amount segment.
   */
  lemma PaypalUsernameWithSlashIsMisread()
    ensures var link := GeneratePaymentLink(Str("paypal"), Num("5"), Obj(map["username" := Str("a/b")]));
      link.Some? && ParsePaypalLink(link.value) == Some(PaypalParams("a", "b/5"))
  {
    var account := Obj(map["username" := Str("a/b")]);
    assert Member(account, "username") == Str("a/b");
    var link := PaypalPrefix + "a/b" + "/" + "5";
    assert GeneratePaymentLink(Str("paypal"), Num("5"), account) == Some(link);
    assert link[|PaypalPrefix|..] == "a" + ['/'] + "b/5";
    SplitAtFirstOfJoin("a", '/', "b/5");
  }

  /** The UPI link of an account whose payee, name and amount convert to text. */
  lemma UpiLinkOfTexts(amount: JsValue, account: JsValue, payee: string, name: string, amt: string)
    requires !IsNullish(account)
    requires ToText(Member(account, "vpa")) == Some(payee)
    requires ToText(Member(account, "name")) == Some(name)
    requires ToText(amount) == Some(amt)
    ensures GeneratePaymentLink(Str("upi"), amount, account)
         == Some(UpiPrefix + payee + "&pn=" + EncodeUriComponent(name) + "&am=" + amt)
  {
  }

  /** A payee name made only of unreserved characters is inserted into a UPI link verbatim. */
  lemma UpiLinkWithUnreservedName(amount: JsValue, account: JsValue, payee: string, name: string, amt: string)
    requires !IsNullish(account)
    requires ToText(Member(account, "vpa")) == Some(payee)
    requires ToText(Member(account, "name")) == Some(name)
    requires ToText(amount) == Some(amt)
    requires forall x | x in name :: IsUnreserved(x)
    ensures GeneratePaymentLink(Str("upi"), amount, account)
         == Some(UpiPrefix + payee + "&pn=" + name + "&am=" + amt)
  {
    EncodeUnreservedIsIdentity(name);
  }

  /** A UPI link for a complete account. */
  lemma ExampleUpiLink()
    ensures GeneratePaymentLink(Str("upi"), Num("100"), Obj(map["vpa" := Str("a@bank"), "name" := Str("Bob")]))
         == Some("upi://pay?pa=a@bank&pn=Bob&am=100")
  {
    var account := Obj(map["vpa" := Str("a@bank"), "name" := Str("Bob")]);
    assert Member(account, "vpa") == Str("a@bank");
    assert Member(account, "name") == Str("Bob");
    UpiLinkWithUnreservedName(Num("100"), account, "a@bank", "Bob", "100");
    assert UpiPrefix + "a@bank" == "upi://pay?pa=a@bank";
    assert "upi://pay?pa=a@bank" + "&pn=" + "Bob" == "upi://pay?pa=a@bank&pn=Bob";
    assert "upi://pay?pa=a@bank&pn=Bob" + "&am=" + "100" == "upi://pay?pa=a@bank&pn=Bob&am=100";
  }

  /** A space is not unreserved: it becomes the escape of its one UTF-8 byte. */
  lemma EncodeSpace()
    ensures EncodeUriComponent(" ") == "%20"
  {
    assert !IsUnreserved(' ');
    assert Utf8(' ') == [32];
    assert PercentBytes([32]) == PercentByte(32) + PercentBytes([]);
    assert HexDigit(2) == '2' && HexDigit(0) == '0';
    assert EncodeUriComponent(" ") == EncodeChar(' ') + EncodeUriComponent("");
  }

  /** Two runs of unreserved characters around one space: only the space is escaped. */
  lemma EncodeAroundSpace(a: string, b: string)
    requires forall x | x in a :: IsUnreserved(x)
    requires forall x | x in b :: IsUnreserved(x)
    ensures EncodeUriComponent(a + " " + b) == a + "%20" + b
  {
    EncodeAppend(a + " ", b);
    EncodeAppend(a, " ");
    EncodeUnreservedIsIdentity(a);
    EncodeUnreservedIsIdentity(b);
    EncodeSpace();
  }

  /** The payee name of the end-to-end example: only its space is escaped. */
  lemma EncodeAliceCo()
    ensures EncodeUriComponent("Alice Co") == "Alice%20Co"
  {
    assert "Alice Co" == "Alice" + " " + "Co";
    EncodeAroundSpace("Alice", "Co");
    assert "Alice" + "%20" + "Co" == "Alice%20Co";
  }

  /** A payee name of two unreserved runs joined by one space: only the space is escaped in the link. */
  lemma UpiLinkWithSpacedName(amount: JsValue, account: JsValue, payee: string, first: string, last: string, amt: string)
    requires !IsNullish(account)
    requires ToText(Member(account, "vpa")) == Some(payee)
    requires ToText(Member(account, "name")) == Some(first + " " + last)
    requires ToText(amount) == Some(amt)
    requires forall x | x in first :: IsUnreserved(x)
    requires forall x | x in last :: IsUnreserved(x)
    ensures GeneratePaymentLink(Str("upi"), amount, account)
         == Some(UpiPrefix + payee + "&pn=" + (first + "%20" + last) + "&am=" + amt)
  {
    UpiLinkOfTexts(amount, account, payee, first + " " + last, amt);
    EncodeAroundSpace(first, last);
  }

  /**
   * The UPI link of the end-to-end example, whose payee name holds a space:
   * `upi://pay?pa=x@y&pn=Alice%20Co&am=250`.
   */
  lemma ExampleAliceCoLink(account: JsValue)
    requires account == Obj(map["vpa" := Str("x@y"), "name" := Str("Alice Co")])
    ensures GeneratePaymentLink(Str("upi"), Num("250"), account)
         == Some(UpiPrefix + "x@y" + "&pn=" + ("Alice" + "%20" + "Co") + "&am=" + "250")
  {
    assert Member(account, "vpa") == Str("x@y");
    assert Member(account, "name") == Str("Alice" + " " + "Co");
    UpiLinkWithSpacedName(Num("250"), account, "x@y", "Alice", "Co", "250");
  }

  /** A PayPal link for a complete account. */
  lemma ExamplePaypalLink()
    ensures GeneratePaymentLink(Str("paypal"), Num("50"), Obj(map["username" := Str("bob")]))
         == Some("https://www.paypal.me/bob/50")
  {
    var account := Obj(map["username" := Str("bob")]);
    assert Member(account, "username") == Str("bob");
    assert GeneratePaymentLink(Str("paypal"), Num("50"), account) == Some(PaypalPrefix + "bob" + "/" + "50");
    assert PaypalPrefix + "bob" + "/" + "50" == "https://www.paypal.me/bob/50";
  }

  /** A missing account member is read as "undefined" rather than failing the request. */
  lemma MissingUpiMembersReadUndefined(amount: JsValue, amt: string)
    requires ToText(amount) == Some(amt)
    ensures var link := GeneratePaymentLink(Str("upi"), amount, Obj(map[]));
      link.Some? && ParseUpiLink(link.value) == Some(UpiParams("undefined", "undefined", amt))
  {
    assert Member(Obj(map[]), "vpa") == Undefined;
    assert Member(Obj(map[]), "name") == Undefined;
    UpiLinkRoundTrip(amount, Obj(map[]), "undefined", "undefined", amt);
  }

  /** An account that is not an object has no members: the username reads as "undefined". */
  lemma NonObjectAccountReadsUndefined(amount: JsValue, amt: string)
    requires ToText(amount) == Some(amt)
    ensures var link := GeneratePaymentLink(Str("paypal"), amount, Str("x"));
      link.Some? && ParsePaypalLink(link.value) == Some(PaypalParams("undefined", amt))
  {
    assert Member(Str("x"), "username") == Undefined;
    PaypalLinkRoundTrip(amount, Str("x"), "undefined", amt);
  }

  /**
   * A value that passes the truthiness guard but cannot be converted to
   * text, such as the amount `{"toString": 1}`, makes a recognised tag throw
   * instead of giving a link.
   */
  lemma UnconvertibleAmountThrows(app: JsValue, amount: JsValue, account: JsValue)
    requires IsPaymentApp(app) && !IsNullish(account)
    requires HasOwnToString(amount)
    ensures GeneratePaymentLink(app, amount, account).None?
  {
  }

  /** The same for an account member: a payee name object with its own `toString`. */
  lemma UnconvertibleNameThrows(amount: JsValue)
    ensures GeneratePaymentLink(Str("upi"), amount,
              Obj(map["vpa" := Str("v"), "name" := Obj(map["toString" := Num("1")])])).None?
  {
    var account := Obj(map["vpa" := Str("v"), "name" := Obj(map["toString" := Num("1")])]);
    assert HasOwnToString(Member(account, "name"));
  }
}
