/** The SMS notification service: the UK phone number normaliser, the
    enabled flag and the message the order notification sends
    (app/services/sms.py). */
module Sms {
  import opened Wrappers
  import opened Text

  // ---------------------------------------------------------------------------
  // _e164_uk
  // ---------------------------------------------------------------------------

  predicate StartsWith(s: string, prefix: string) {
    |prefix| <= |s| && s[..|prefix|] == prefix
  }

  predicate NoSpaceChar(s: string) {
    forall i :: 0 <= i < |s| ==> s[i] != ' '
  }

  /** Neither end is whitespace. */
  predicate Trimmed(s: string) {
    s == [] || (!IsSpace(s[0]) && !IsSpace(s[|s| - 1]))
  }

  lemma DeleteCharEnds(s: string, c: char)
    requires s != [] && s[0] != c && s[|s| - 1] != c
    ensures var r := DeleteChar(s, c); r != [] && r[0] == s[0] && r[|r| - 1] == s[|s| - 1]
  {
    assert s == s[..|s| - 1] + [s[|s| - 1]];
    DeleteCharAppend(s[..|s| - 1], [s[|s| - 1]], c);
    assert DeleteChar([s[|s| - 1]], c) == [s[|s| - 1]];
  }

  /** `number.strip().replace(" ", "")` */
  function Clean(number: string): (n: string)
    ensures NoSpaceChar(n) && Trimmed(n)
    ensures |n| <= |number|
  {
    var s := Strip(number);
    if s == [] then []
    else
      DeleteCharEnds(s, ' ');
      DeleteChar(s, ' ')
  }

  /** A string without spaces and with non-whitespace ends is already clean. */
  lemma CleanKeeps(s: string)
    requires NoSpaceChar(s) && Trimmed(s)
    ensures Clean(s) == s
  {
    StripCharsNoop(s, Whitespace);
    DeleteCharKeeps(s, ' ');
  }

  /** Cleaning twice is cleaning once. */
  lemma CleanIdempotent(number: string)
    ensures Clean(Clean(number)) == Clean(number)
  {
    CleanKeeps(Clean(number));
  }

  /** The prefix rules of `_e164_uk`, applied to the cleaned number, in order. */
  function Rewrite(n: string): string {
    if |n| >= 1 && n[0] == '+' then n
    else if |n| >= 2 && n[0] == '0' && n[1] == '0' then "+" + n[2..]
    else if |n| >= 1 && n[0] == '0' then "+44" + n[1..]
    else if |n| >= 2 && n[0] == '4' && n[1] == '4' then "+" + n
    else if IsDigitString(n) && 9 <= |n| <= 11 then "+44" + n
    else n
  }

  /** `_e164_uk`: the cleaned number with its prefix rewritten toward the E.164
      form with country code 44: "+..." is kept, "00..." becomes "+...",
      "0..." becomes "+44...", "44..." gains "+", and a bare number of 9 to 11
      digits gains "+44"; a cleaned number that matches no rule is returned
      unchanged for the SMS gateway to judge. */
  function E164Uk(number: string): (r: string)
    ensures var n := Clean(number);
      && (r == n || (|r| > 0 && r[0] == '+' && (|n| == 0 || n[0] != '+')))
      && (|n| > 0 && n[0] == '+' ==> r == n)
      && (|n| >= 2 && n[0] == '0' && n[1] == '0' ==> r == "+" + n[2..])
      && (|n| > 0 && n[0] == '0' && (|n| == 1 || n[1] != '0') ==> r == "+44" + n[1..])
      && (|n| >= 2 && n[0] == '4' && n[1] == '4' ==> r == "+" + n)
      && (IsDigitString(n) && 9 <= |n| <= 11 && n[0] != '0' && !(n[0] == '4' && n[1] == '4') ==> r == "+44" + n)
      && ((!(|n| > 0 && (n[0] == '+' || n[0] == '0')) && !(|n| >= 2 && n[0] == '4' && n[1] == '4')
           && !(IsDigitString(n) && 9 <= |n| <= 11)) ==> r == n)
  {
    Rewrite(Clean(number))
  }

  /** A clean tail after a non-blank prefix without spaces stays clean. */
  lemma PrefixedIsClean(p: string, t: string)
    requires p != [] && NoSpaceChar(p) && !IsSpace(p[0]) && !IsSpace(p[|p| - 1])
    requires NoSpaceChar(t) && (t == [] || !IsSpace(t[|t| - 1]))
    ensures Clean(p + t) == p + t
  {
    var r := p + t;
    assert NoSpaceChar(r) by {
      forall i | 0 <= i < |r| ensures r[i] != ' ' {
        if i >= |p| { assert r[i] == t[i - |p|]; }
      }
    }
    CleanKeeps(r);
  }

  /** Rewriting a clean number gives a clean number: the national digits after
      a rewritten prefix keep no space and no whitespace at the end. */
  lemma RewriteIsClean(n: string)
    requires NoSpaceChar(n) && Trimmed(n)
    ensures Clean(Rewrite(n)) == Rewrite(n)
  {
    if |n| >= 1 && n[0] == '+' {
      CleanKeeps(n);
    } else if |n| >= 2 && n[0] == '0' && n[1] == '0' {
      PrefixedIsClean("+", n[2..]);
    } else if |n| >= 1 && n[0] == '0' {
      PrefixedIsClean("+44", n[1..]);
    } else if |n| >= 2 && n[0] == '4' && n[1] == '4' {
      PrefixedIsClean("+", n);
    } else if IsDigitString(n) && 9 <= |n| <= 11 {
      PrefixedIsClean("+44", n);
    } else {
      CleanKeeps(n);
    }
  }

  /** Every normalised number is already clean. */
  lemma E164IsClean(number: string)
    ensures Clean(E164Uk(number)) == E164Uk(number)
  {
    RewriteIsClean(Clean(number));
  }

  /** Normalising a normalised number changes nothing: a rewritten result
      starts with "+", and the fallback result is a fixed point. */
  lemma E164Idempotent(number: string)
    ensures E164Uk(E164Uk(number)) == E164Uk(number)
  {
    E164IsClean(number);
    CleanIdempotent(number);
  }

  /** A bare number of nine digits is taken as national: the code accepts 9 to
      11 digits, where the function's own description says 10 to 11. */
  lemma NineDigitsGetCountryCode(n: string)
    requires IsDigitString(n) && |n| == 9 && n[0] != '0' && !(n[0] == '4' && n[1] == '4')
    ensures E164Uk(n) == "+44" + n
  {
    DigitsAreClean(n);
  }

  /** A string of digits is its own cleaned form. */
  lemma DigitsAreClean(n: string)
    requires IsDigitString(n)
    ensures Clean(n) == n
  {
    assert NoSpaceChar(n) by {
      forall i | 0 <= i < |n| ensures n[i] != ' ' { assert IsDigit(n[i]); }
    }
    assert !IsSpace(n[0]) && !IsSpace(n[|n| - 1]) by { assert IsDigit(n[0]) && IsDigit(n[|n| - 1]); }
    CleanKeeps(n);
  }

  // ---------------------------------------------------------------------------
  // SMSService
  // ---------------------------------------------------------------------------

  /** The configuration values the service reads. */
  datatype Settings = Settings(
    smsEnabled: bool,
    clicksendUsername: Option<string>,
    clicksendApiKey: Option<string>,
    smsSender: Option<string>)

  /** Python truthiness of an optional string. */
  predicate Truthy(s: Option<string>) {
    s.Some? && s.value != []
  }

  /** `"Basic " + base64("{username}:{api_key}")`, kept as its two parts. */
  datatype AuthHeader = Basic(username: string, apiKey: string)

  /** The service's answer: "disabled" without sending, or the ClickSend
      message payload the service builds (recipient, body, optional `_from`).
      The HTTP call that would carry it is not part of this model. */
  datatype SmsResponse =
    | Disabled(message: string)
    | Dispatch(to: string, body: string, from: Option<string>)

  const DisabledMessage: string := "SMS service is disabled"

  /** The notification text of an order. */
  function OrderMessage(restaurant: string, customer: string, amount: string, orderRef: Option<string>): string {
    var head := "You have an order for " + restaurant + " by " + customer + " for " + amount;
    if Truthy(orderRef) then head + (" (Order #" + orderRef.value + ")") + ". Thank you for your order!"
    else head + ". Thank you for your order!"
  }

  /** The message names the restaurant, customer and amount in order, carries
      the order reference exactly when one is given, and ends with the thanks. */
  lemma OrderMessageShape(restaurant: string, customer: string, amount: string, orderRef: Option<string>)
    ensures var m := OrderMessage(restaurant, customer, amount, orderRef);
      var head := "You have an order for " + restaurant + " by " + customer + " for " + amount;
      var tail := ". Thank you for your order!";
      && StartsWith(m, head)
      && |m| == |head| + (if Truthy(orderRef) then |orderRef.value| + 10 else 0) + |tail|
      && m[|m| - |tail|..] == tail
      && (Truthy(orderRef) ==> m[|head|..|m| - |tail|] == " (Order #" + orderRef.value + ")")
      && (!Truthy(orderRef) ==> m == head + tail)
  {
    var m := OrderMessage(restaurant, customer, amount, orderRef);
    var head := "You have an order for " + restaurant + " by " + customer + " for " + amount;
    var tail := ". Thank you for your order!";
    if Truthy(orderRef) {
      var mid := " (Order #" + orderRef.value + ")";
      assert m == head + mid + tail;
      assert m[..|head|] == head;
      assert m[|head|..|m| - |tail|] == mid;
    } else {
      assert m == head + tail;
      assert m[..|head|] == head;
    }
  }

  /** `SMSService`: enabled and credentials are decided once, at construction. */
  class SmsService {
    const enabled: bool
    const authHeader: Option<AuthHeader>
    const sender: Option<string>

    /** Enabled exactly when SMS_ENABLED is set and both ClickSend credentials
        are non-empty; the auth header exists exactly when enabled. */
    constructor (settings: Settings)
      ensures enabled <==> settings.smsEnabled && Truthy(settings.clicksendUsername)
                           && Truthy(settings.clicksendApiKey)
      ensures authHeader.Some? <==> enabled
      ensures enabled ==> authHeader == Some(Basic(settings.clicksendUsername.value, settings.clicksendApiKey.value))
      ensures sender == settings.smsSender
      ensures Valid()
    {
      enabled := settings.smsEnabled && Truthy(settings.clicksendUsername) && Truthy(settings.clicksendApiKey);
      if settings.smsEnabled && Truthy(settings.clicksendUsername) && Truthy(settings.clicksendApiKey) {
        authHeader := Some(Basic(settings.clicksendUsername.value, settings.clicksendApiKey.value));
      } else {
        authHeader := None;
      }
      sender := settings.smsSender;
    }

    predicate Valid() {
      authHeader.Some? <==> enabled
    }

    /** The part of `_send_via_clicksend` before the network call: the disabled
        guard, the E.164 recipient, and the optional sender. */
    method SendViaClickSend(toPhone: string, message: string) returns (r: SmsResponse)
      requires Valid()
      ensures r.Disabled? <==> !enabled
      ensures r.Disabled? ==> r.message == DisabledMessage
      ensures r.Dispatch? ==> r.to == E164Uk(toPhone) && r.body == message
      ensures r.Dispatch? ==> (r.from.Some? <==> Truthy(sender)) && (r.from.Some? ==> r.from == sender)
      ensures r.Dispatch? ==> StartsWith(r.to, "+") || r.to == Clean(toPhone)
    {
      if !enabled || authHeader.None? {
        return Disabled(DisabledMessage);
      }
      var to := E164Uk(toPhone);
      var from := if Truthy(sender) then sender else None;
      r := Dispatch(to, message, from);
    }

    /** `send_order_notification`: disabled without sending, otherwise the
        order message goes to the customer's normalised number. */
    method SendOrderNotification(restaurantName: string, customerName: string, customerPhone: string,
                                 orderAmount: string, orderRef: Option<string>)
      returns (r: SmsResponse)
      requires Valid()
      ensures r.Disabled? <==> !enabled
      ensures r.Disabled? ==> r.message == DisabledMessage
      ensures r.Dispatch? ==>
        r.to == E164Uk(customerPhone) && r.body == OrderMessage(restaurantName, customerName, orderAmount, orderRef)
    {
      if !enabled {
        return Disabled(DisabledMessage);
      }
      var msg := "You have an order for " + restaurantName + " by " + customerName + " for " + orderAmount;
      if Truthy(orderRef) {
        msg := msg + (" (Order #" + orderRef.value + ")");
      }
      msg := msg + ". Thank you for your order!";
      r := SendViaClickSend(customerPhone, msg);
    }

    /** `send_custom_sms`: disabled without sending, otherwise the message as given. */
    method SendCustomSms(phoneNumber: string, message: string) returns (r: SmsResponse)
      requires Valid()
      ensures r.Disabled? <==> !enabled
      ensures r.Disabled? ==> r.message == DisabledMessage
      ensures r.Dispatch? ==> r.to == E164Uk(phoneNumber) && r.body == message
    {
      if !enabled {
        return Disabled(DisabledMessage);
      }
      r := SendViaClickSend(phoneNumber, message);
    }
  }
}
