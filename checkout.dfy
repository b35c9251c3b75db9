/** The demo shop's checkout page (neonmart/app/checkout/page.tsx): the subtotal read
    from the query string, shipping, the SAVE10 coupon, the total, and the form validity
    flag, which an effect recomputes only when a form field or the subtotal changes —
    so that changing shipping or the coupon leaves it stale, as the page intends. */
module Checkout {
  import opened Wrappers
  import Text
  import Js
  import Storefront

  datatype Shipping = Standard | Express

  /** `shipping === "standard" ? 0 : 12`. */
  function ShippingCost(s: Shipping): (r: nat)
    ensures r == 0 <==> s == Standard
    ensures s == Express ==> r == 12
  {
    if s == Standard then 0 else 12
  }

  /** `couponApplied ? 10 : 0`. */
  function Discount(couponApplied: bool): (r: nat)
    ensures r > 0 <==> couponApplied
    ensures couponApplied ==> r == 10
  {
    if couponApplied then 10 else 0
  }

  /** `Number(searchParams?.subtotal || 0)`: an absent (or empty) parameter gives 0, a
      numeral its value, anything else NaN. */
  function ParseSubtotal(param: Option<string>): (r: Js.JsNum)
    ensures param.None? ==> r == Js.Finite(0)
    ensures param.Some? && param.value != "" ==> r == Js.Number(param.value)
  {
    if param.None? || param.value == "" then Js.Finite(0) else Js.Number(param.value)
  }

  /** `Math.max(0, baseSubtotal + shippingCost - discount)`; NaN stays NaN. */
  function Total(base: Js.JsNum, shipping: Shipping, couponApplied: bool): (r: Js.JsNum)
    ensures r.NaN? <==> base.NaN?
    ensures r.Finite? ==> r.value >= 0
    ensures r.Finite? ==> (r.value > 0 <==> base.value + ShippingCost(shipping) > Discount(couponApplied))
    ensures r.Finite? && r.value > 0 ==> r.value == base.value + ShippingCost(shipping) - Discount(couponApplied)
  {
    match base
    case NaN => Js.NaN
    case Finite(v) =>
      var t := v + ShippingCost(shipping) - Discount(couponApplied);
      Js.Finite(if t > 0 then t else 0)
  }

  /** A JavaScript comparison `x > 0`, false for NaN. */
  predicate Positive(x: Js.JsNum) {
    x.Finite? && x.value > 0
  }

  datatype Form = Form(name: string, email: string, address1: string)

  /** The test inside the validity effect. */
  function FormOk(form: Form, base: Js.JsNum, total: Js.JsNum): (r: bool)
    ensures r ==> |form.name| >= 2 && |form.address1| >= 6
  {
    && |Js.Trim(form.name)| > 1
    && '@' in form.email
    && |Js.Trim(form.address1)| > 5
    && Positive(base)
    && Positive(total)
  }

  /** `coupon.trim().toUpperCase() === "SAVE10"`. */
  function CouponAccepted(code: string): (r: bool)
    ensures r ==> |Js.Trim(code)| == 6 && |code| >= 6
  {
    Js.ToUpperCase(Js.Trim(code)) == "SAVE10"
  }

  /** The coupon ignores letter case: any six-character code with no white space at
      its ends whose characters raise to S, A, V, E, 1, 0 is accepted. */
  lemma CouponIgnoresCase(code: string)
    requires |code| == 6 && !Js.IsSpace(code[0]) && !Js.IsSpace(code[5])
    requires forall i :: 0 <= i < 6 ==> Js.UpperChar(code[i]) == "SAVE10"[i]
    ensures CouponAccepted(code)
  {
    var u := Js.ToUpperCase(Js.Trim(code));
    assert Js.Trim(code) == code;
    assert forall i :: 0 <= i < 6 ==> u[i] == "SAVE10"[i];
  }

  /** The code as printed on the page is accepted. */
  lemma CouponAcceptsSave10()
    ensures CouponAccepted("SAVE10")
  {
    var c := "SAVE10";
    assert c[0] == 'S' && c[5] == '0';
    assert forall i :: 0 <= i < 6 ==> Js.UpperChar(c[i]) == "SAVE10"[i];
    CouponIgnoresCase(c);
  }

  /** The code typed in lower case is accepted. */
  lemma CouponAcceptsLowerCase()
    ensures CouponAccepted("save10")
  {
    var c := "save10";
    assert c[0] == 's' && c[5] == '0';
    assert forall i :: 0 <= i < 6 ==> Js.UpperChar(c[i]) == "SAVE10"[i];
    CouponIgnoresCase(c);
  }

  /** The coupon ignores surrounding white space: padding a code without white space
      at its ends by any white space does not change whether it is accepted. */
  lemma CouponIgnoresSurroundingSpace(pre: string, code: string, post: string)
    requires |code| > 0 && !Js.IsSpace(code[0]) && !Js.IsSpace(code[|code| - 1])
    requires forall i :: 0 <= i < |pre| ==> Js.IsSpace(pre[i])
    requires forall i :: 0 <= i < |post| ==> Js.IsSpace(post[i])
    ensures CouponAccepted(pre + code + post) <==> CouponAccepted(code)
  {
    Text.TrimSurrounded(pre, code, post, Js.IsSpace);
  }

  /** Exactly the codes that trim to six characters raising to S, A, V, E, 1, 0 are
      accepted; any other code, whatever its length or letters, is refused. */
  lemma CouponCharacterised(code: string)
    ensures CouponAccepted(code) <==>
      var t := Js.Trim(code); |t| == 6 && forall i :: 0 <= i < 6 ==> Js.UpperChar(t[i]) == "SAVE10"[i]
  {
    var t := Js.Trim(code);
    var u := Js.ToUpperCase(t);
    if |t| == 6 && forall i :: 0 <= i < 6 ==> Js.UpperChar(t[i]) == "SAVE10"[i] {
      assert forall i :: 0 <= i < 6 ==> u[i] == "SAVE10"[i];
    }
  }

  /** The subtotal the cart puts in the checkout link is the subtotal the checkout reads. */
  lemma LinkSubtotalRoundTrip(items: seq<Storefront.CartItem>)
    ensures var href := Storefront.CheckoutLink(items).href;
      ParseSubtotal(Some(href[|Storefront.CheckoutPath|..])) == Js.Finite(Storefront.Subtotal(items))
  {
    var q := Storefront.CheckoutLink(items).href[|Storefront.CheckoutPath|..];
    assert q != "" by {
      assert Text.StartsWith(Storefront.CheckoutLink(items).href, Storefront.CheckoutPath);
      Text.DigitsValueOfNatToString(Storefront.Subtotal(items));
    }
  }

  /** Without a subtotal in the link (or when the page never receives it) the base
      subtotal is 0 and the form can never become valid, whatever is entered. */
  lemma AbsentSubtotalNeverValid(form: Form, shipping: Shipping, couponApplied: bool)
    ensures var base := ParseSubtotal(None);
      !FormOk(form, base, Total(base, shipping, couponApplied))
  {
  }

  class CheckoutPage {
    const baseSubtotal: Js.JsNum
    var shipping: Shipping
    var coupon: string
    var couponApplied: bool
    var form: Form
    var isValid: bool

    /** Whether `isValid` agrees with the current state. */
    predicate UpToDate()
      reads this
    {
      isValid == FormOk(form, baseSubtotal, Total(baseSubtotal, shipping, couponApplied))
    }

    /** The first render and its effect. */
    constructor (subtotalParam: Option<string>)
      ensures baseSubtotal == ParseSubtotal(subtotalParam)
      ensures shipping == Standard && coupon == "" && !couponApplied && form == Form("", "", "")
      ensures !isValid && UpToDate()
    {
      baseSubtotal := ParseSubtotal(subtotalParam);
      shipping := Standard;
      coupon := "";
      couponApplied := false;
      form := Form("", "", "");
      isValid := false;
    }

    /** The effect: it runs only when one of its dependencies changed. */
    method RunValidityEffect(before: Form)
      modifies this
      ensures isValid == if form != before then FormOk(form, baseSubtotal, Total(baseSubtotal, shipping, couponApplied)) else old(isValid)
      ensures shipping == old(shipping) && coupon == old(coupon) && couponApplied == old(couponApplied) && form == old(form)
    {
      if form.name != before.name || form.email != before.email || form.address1 != before.address1 {
        isValid := FormOk(form, baseSubtotal, Total(baseSubtotal, shipping, couponApplied));
      }
    }

    /** Typing into a form field: the field changes and, when its value is new, the
        effect makes `isValid` current again. */
    method SetForm(f: Form)
      modifies this
      ensures form == f && shipping == old(shipping) && coupon == old(coupon) && couponApplied == old(couponApplied)
      ensures f != old(form) ==> UpToDate()
      ensures f == old(form) ==> isValid == old(isValid)
    {
      var before := form;
      form := f;
      RunValidityEffect(before);
    }

    /** Picking a shipping option: `isValid` is not recomputed. */
    method SetShipping(s: Shipping)
      modifies this
      ensures shipping == s && isValid == old(isValid)
      ensures form == old(form) && coupon == old(coupon) && couponApplied == old(couponApplied)
    {
      shipping := s;
    }

    method SetCoupon(code: string)
      modifies this
      ensures coupon == code && isValid == old(isValid)
      ensures form == old(form) && shipping == old(shipping) && couponApplied == old(couponApplied)
    {
      coupon := code;
    }

    /** `applyCoupon()`: the coupon is applied exactly when the entered code is SAVE10
        (ignoring spaces and case), and cleared otherwise; `isValid` is not recomputed. */
    method ApplyCoupon()
      modifies this
      ensures couponApplied == CouponAccepted(coupon) && isValid == old(isValid)
      ensures form == old(form) && shipping == old(shipping) && coupon == old(coupon)
    {
      var code := Js.ToUpperCase(Js.Trim(coupon));
      couponApplied := code == "SAVE10";
    }
  }

  lemma SubtotalTen()
    ensures ParseSubtotal(Some("10")) == Js.Finite(10)
  {
    assert Text.AllDigits("10");
    assert "10"[..1] == "1" && "1"[..0] == "";
    assert Text.DigitsValue("1") == 1;
    assert Text.DigitsValue("10") == 10;
    assert Js.Number("10") == Js.Finite(10);
  }

  /** The intended bug: with a subtotal of 10 and SAVE10 applied the total is 0, so any
      completed form is invalid; switching to express shipping makes the total 12 and
      the form acceptable, yet `isValid` stays false. */
  method StaleAfterCouponAndShipping(f: Form) returns (page: CheckoutPage)
    requires |Js.Trim(f.name)| > 1 && '@' in f.email && |Js.Trim(f.address1)| > 5
    ensures !page.isValid
    ensures FormOk(page.form, page.baseSubtotal, Total(page.baseSubtotal, page.shipping, page.couponApplied))
    ensures !page.UpToDate()
  {
    SubtotalTen();
    CouponAcceptsSave10();
    page := new CheckoutPage(Some("10"));
    page.SetCoupon("SAVE10");
    page.ApplyCoupon();
    assert page.couponApplied && page.shipping == Standard && page.baseSubtotal == Js.Finite(10);
    assert Total(page.baseSubtotal, page.shipping, page.couponApplied) == Js.Finite(0);
    assert f != page.form by { assert |f.name| > 1; }
    page.SetForm(f);
    assert page.UpToDate();
    assert !page.isValid;
    page.SetShipping(Express);
    assert page.shipping == Express && page.couponApplied && page.baseSubtotal == Js.Finite(10) && page.form == f;
    assert Total(page.baseSubtotal, page.shipping, page.couponApplied) == Js.Finite(12);
    assert Positive(page.baseSubtotal) && Positive(Js.Finite(12));
  }
}
