/** The order panel of `OperationListView`: the submit button's choice of alert,
 *  the alert state it writes, clearing the order, and the rule that enables
 *  the account login button. Rendering `totalPrice` as text is library code and
 *  arrives as a parameter; everything on screen is outside the model. */
module Checkout {
  import opened Text
  import opened CartManagement
  import opened PhoneNumbers

  /** `PaymentMethod`: 现金 (cash), 电子货币 (electronic money) and 登月通行证
   *  (the membership card). */
  datatype PaymentMethod = Cash | ECurrency | MoonPass

  /** The enum's raw value, which is also what the confirmation text shows. */
  function RawValue(payment: PaymentMethod): string {
    match payment
    case Cash => "现金"
    case ECurrency => "电子货币"
    case MoonPass => "登月通行证"
  }

  /** Different methods have different raw values. */
  lemma RawValueInjective(a: PaymentMethod, b: PaymentMethod)
    ensures RawValue(a) == RawValue(b) <==> a == b
  {
  }

  datatype AlertState = EmptyList | ConfirmPaymentAlert | LoginAlert

  /** What an alert shows: its title, its message and which alert it is. */
  datatype Alert = Alert(title: string, content: string, state: AlertState)

  const EmptyListAlert := Alert("还没选择商品", "请在商品列表中选取商品后再提交订单!", EmptyList)

  /** The alert `submitOrder` shows: an empty cart is refused; cash and
   *  electronic money ask to confirm the payment of the total; the card asks
   *  for the account login. */
  function SubmitAlert(items: seq<CartItem>, payment: PaymentMethod, totalText: string): (a: Alert)
    ensures a.state == EmptyList <==> items == []
    ensures items == [] ==> a == EmptyListAlert
    ensures items != [] && payment != MoonPass ==>
      a == Alert("请确认支付", "请确认用户已通过" + RawValue(payment) + "支付" + totalText + "元", ConfirmPaymentAlert)
    ensures items != [] && payment == MoonPass ==> a == Alert("账号密码登录", "", LoginAlert)
  {
    if |items| == 0 then EmptyListAlert
    else
      match payment
      case Cash | ECurrency => Alert("请确认支付", "请确认用户已通过" + RawValue(payment) + "支付" + totalText + "元", ConfirmPaymentAlert)
      case _ => Alert("账号密码登录", "", LoginAlert)
  }

  /** Which alert appears depends only on whether the cart is empty and on the
   *  payment method: not on what is in the cart nor on the total. */
  lemma SubmitAlertStateOnly(items: seq<CartItem>, other: seq<CartItem>, payment: PaymentMethod, t: string, u: string)
    requires (items == []) == (other == [])
    ensures SubmitAlert(items, payment, t).state == SubmitAlert(other, payment, u).state
    ensures SubmitAlert(items, payment, t).title == SubmitAlert(other, payment, u).title
  {
  }

  /** The account login button is enabled when the account is eleven characters. */
  predicate LoginSubmitEnabled(accountID: string) {
    |accountID| == MaxLength
  }

  /** Since the field is sanitised on every change, the button is enabled exactly
   *  when the first eleven characters of what was entered are digits. */
  lemma LoginEnabledAfterFormatting(entered: string)
    ensures LoginSubmitEnabled(PhoneNumFormatter(entered)) <==>
      |entered| >= MaxLength && AllDigits(entered[..MaxLength])
  {
    var t := Truncated(entered);
    if |entered| >= MaxLength {
      assert t == entered[..MaxLength];
    }
  }

  /** The state of the order panel, with the cart it shares. */
  class OrderPanel {
    var commentText: string
    var selectedPaymentMethod: PaymentMethod
    var isShowingAlert: bool
    var alertState: AlertState
    var alertTitle: string
    var alertContent: string
    var accountID: string
    const cartManager: CartManager

    /** The initial values of the view's `@State` variables. */
    constructor (cartManager: CartManager)
      ensures this.cartManager == cartManager
      ensures commentText == "" && selectedPaymentMethod == ECurrency && !isShowingAlert
      ensures Alert(alertTitle, alertContent, alertState) == EmptyListAlert
      ensures accountID == ""
    {
      this.cartManager := cartManager;
      commentText := "";
      selectedPaymentMethod := ECurrency;
      isShowingAlert := false;
      alertState := EmptyList;
      alertTitle := EmptyListAlert.title;
      alertContent := EmptyListAlert.content;
      accountID := "";
    }

    /** `showAlert`: set the alert and show it; nothing else changes. */
    method ShowAlert(title: string, content: string, state: AlertState)
      modifies this
      ensures alertTitle == title && alertContent == content && alertState == state && isShowingAlert
      ensures commentText == old(commentText) && selectedPaymentMethod == old(selectedPaymentMethod)
      ensures accountID == old(accountID)
    {
      alertTitle := title;
      alertContent := content;
      alertState := state;
      isShowingAlert := true;
    }

    /** `submitOrder`: show the alert `SubmitAlert` chooses for the cart and the
     *  selected method, the total rendered by `render`. */
    method SubmitOrder(render: real -> string)
      modifies this
      ensures Alert(alertTitle, alertContent, alertState) ==
        SubmitAlert(cartManager.items, selectedPaymentMethod, render(Total(cartManager.items)))
      ensures isShowingAlert
      ensures commentText == old(commentText) && selectedPaymentMethod == old(selectedPaymentMethod)
      ensures accountID == old(accountID)
    {
      if |cartManager.items| == 0 {
        ShowAlert("还没选择商品", "请在商品列表中选取商品后再提交订单!", EmptyList);
      } else {
        match selectedPaymentMethod
        case Cash | ECurrency =>
          ShowAlert("请确认支付", "请确认用户已通过" + RawValue(selectedPaymentMethod) + "支付" +
                    render(cartManager.TotalPrice()) + "元", ConfirmPaymentAlert);
        case _ =>
          ShowAlert("账号密码登录", "", LoginAlert);
      }
    }

    /** `clearOrderList`: empty the cart and the comment. */
    method ClearOrderList()
      modifies this, cartManager
      ensures cartManager.items == [] && commentText == ""
      ensures ValidCart(cartManager.items)
      ensures selectedPaymentMethod == old(selectedPaymentMethod) && accountID == old(accountID)
      ensures isShowingAlert == old(isShowingAlert)
      ensures Alert(alertTitle, alertContent, alertState) == old(Alert(alertTitle, alertContent, alertState))
    {
      cartManager.items := [];
      commentText := "";
    }

    /** `clearLoginState`: forget the account typed so far. */
    method ClearLoginState()
      modifies this
      ensures accountID == "" && !LoginSubmitEnabled(accountID)
      ensures commentText == old(commentText) && selectedPaymentMethod == old(selectedPaymentMethod)
      ensures isShowingAlert == old(isShowingAlert)
      ensures Alert(alertTitle, alertContent, alertState) == old(Alert(alertTitle, alertContent, alertState))
    {
      accountID := "";
    }

    /** The account field's `onChange`: the new text, sanitised. */
    method EditAccountID(newValue: string)
      modifies this
      ensures accountID == PhoneNumFormatter(newValue)
      ensures commentText == old(commentText) && selectedPaymentMethod == old(selectedPaymentMethod)
      ensures isShowingAlert == old(isShowingAlert)
      ensures Alert(alertTitle, alertContent, alertState) == old(Alert(alertTitle, alertContent, alertState))
    {
      accountID := PhoneNumFormatter(newValue);
    }
  }
}
