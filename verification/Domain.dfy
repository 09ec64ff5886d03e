/** The entities of the order, payment and assembly services, as values. */
module Domain {
  import opened Wrappers

  // Identifiers are text; "" is the empty transaction id of an unpaid order.
  type Uuid = string

  /** The canonical text of a UUID: 36 characters, dashes at four fixed places and
      lower-case hexadecimal digits at all others. */
  predicate UuidText(s: string) {
    && |s| == 36
    && forall i :: 0 <= i < |s| ==>
         if i == 8 || i == 13 || i == 18 || i == 23 then s[i] == '-'
         else '0' <= s[i] <= '9' || 'a' <= s[i] <= 'f'
  }

  predicate LowerHex(s: string) {
    forall c :: c in s ==> c in "0123456789abcdef"
  }

  /** Five groups of 8, 4, 4, 4 and 12 hexadecimal digits, joined by dashes. */
  lemma UuidTextIsFiveGroups(s: string)
    ensures UuidText(s) <==>
            && |s| == 36
            && LowerHex(s[..8]) && LowerHex(s[9..13]) && LowerHex(s[14..18]) && LowerHex(s[19..23]) && LowerHex(s[24..])
            && s == s[..8] + "-" + s[9..13] + "-" + s[14..18] + "-" + s[19..23] + "-" + s[24..]
  {
    HexDigits();
    if |s| == 36 {
      var joined := s[..8] + "-" + s[9..13] + "-" + s[14..18] + "-" + s[19..23] + "-" + s[24..];
      assert |joined| == 36 && joined[8] == '-' && joined[13] == '-' && joined[18] == '-' && joined[23] == '-';
      if s == joined && LowerHex(s[..8]) && LowerHex(s[9..13]) && LowerHex(s[14..18]) && LowerHex(s[19..23])
         && LowerHex(s[24..]) {
        forall i | 0 <= i < 36 && i != 8 && i != 13 && i != 18 && i != 23
          ensures s[i] in "0123456789abcdef"
        {
          if i < 8 {
            assert s[i] in s[..8];
          } else if i < 13 {
            assert s[9..13][i - 9] == s[i];
          } else if i < 18 {
            assert s[14..18][i - 14] == s[i];
          } else if i < 23 {
            assert s[19..23][i - 19] == s[i];
          } else {
            assert s[24..][i - 24] == s[i];
          }
        }
      }
      if UuidText(s) {
        assert s == joined;
      }
    }
  }

  lemma HexDigits()
    ensures forall c :: c in "0123456789abcdef" <==> '0' <= c <= '9' || 'a' <= c <= 'f'
  {
    forall c
      ensures c in "0123456789abcdef" <==> '0' <= c <= '9' || 'a' <= c <= 'f'
    {
      if '0' <= c <= '9' {
        assert "0123456789abcdef"[c as int - '0' as int] == c;
      } else if 'a' <= c <= 'f' {
        assert "0123456789abcdef"[c as int - 'a' as int + 10] == c;
      }
    }
  }

  datatype Status = PendingPayment | Paid | Cancelled | Completed

  // The API's payment method is text: five named values and anything else.
  datatype PaymentMethod =
    | Unspecified | Card | Sbp | CreditCard | InvestorMoney
    | Unlisted(text: string)

  datatype ProtoMethod = ProtoUnspecified | ProtoCard | ProtoSbp | ProtoCreditCard | ProtoInvestorMoney

  /** The API's texts for its methods. */
  function ApiText(m: PaymentMethod): string {
    match m
    case Unspecified => "PAYMENT_METHOD_UNSPECIFIED"
    case Card => "PAYMENT_METHOD_CARD"
    case Sbp => "PAYMENT_METHOD_SBP"
    case CreditCard => "PAYMENT_METHOD_CREDIT_CARD"
    case InvestorMoney => "PAYMENT_METHOD_INVESTOR_MONEY"
    case Unlisted(text) => text
  }

  /** The payment service's names for its enum values. */
  function ProtoName(p: ProtoMethod): string {
    match p
    case ProtoUnspecified => "PAYMENT_METHOD_UNSPECIFIED"
    case ProtoCard => "PAYMENT_METHOD_CARD"
    case ProtoSbp => "PAYMENT_METHOD_SBP"
    case ProtoCreditCard => "PAYMENT_METHOD_CREDIT_CARD"
    case ProtoInvestorMoney => "PAYMENT_METHOD_INVESTOR_MONEY"
  }

  /** OpenAPIPaymentMethodToProto: a switch whose default is "unspecified". It keeps the
      name, and reading the result back gives the method; unlisted text becomes Unspecified. */
  function ToProto(m: PaymentMethod): (p: ProtoMethod)
    ensures ProtoName(p) == ApiText(if m.Unlisted? then Unspecified else m)
    ensures FromProto(p) == if m.Unlisted? then Unspecified else m
  {
    match m
    case Unspecified => ProtoUnspecified
    case Card => ProtoCard
    case Sbp => ProtoSbp
    case CreditCard => ProtoCreditCard
    case InvestorMoney => ProtoInvestorMoney
    case Unlisted(_) => ProtoUnspecified
  }

  function FromProto(p: ProtoMethod): PaymentMethod {
    match p
    case ProtoUnspecified => Unspecified
    case ProtoCard => Card
    case ProtoSbp => Sbp
    case ProtoCreditCard => CreditCard
    case ProtoInvestorMoney => InvestorMoney
  }

  // One row of the orders table. Prices are exact integers (minor units).
  datatype Order = Order(
    uuid: Uuid,
    userId: Uuid,
    partIds: seq<Uuid>,
    totalPrice: int,
    transactionId: Uuid,
    paymentMethod: PaymentMethod,
    status: Status,
    updatedAt: Option<int>)

  // The optional fields of a repository update.
  datatype OrderUpdate = OrderUpdate(
    status: Option<Status>,
    transactionId: Option<Uuid>,
    paymentMethod: Option<PaymentMethod>)

  // A stored transaction; its status is always "completed" and its amount always 0.
  datatype Transaction = Transaction(
    uuid: Uuid,
    orderId: Uuid,
    userId: Uuid,
    payBy: ProtoMethod,
    amount: int)

  datatype OrderPaid = OrderPaid(
    eventId: Uuid,
    orderId: Uuid,
    userId: Uuid,
    payBy: PaymentMethod,
    transactionId: Uuid)

  datatype ShipAssembled = ShipAssembled(
    eventId: Uuid,
    orderId: Uuid,
    userId: Uuid,
    buildTimeSec: int)

  // What one GetPart call to the inventory service brings back.
  datatype PartReply = Unavailable | Quoted(price: int, stock: int)
  datatype Item = Item(part: Uuid, reply: PartReply)

  datatype AppError =
    | OrderNotFound | OrderCannotBePaid | OrderAlreadyPaid
    | PaymentFailed | UpdateFailed | CancelFailed | CreateFailed
    | NoPartsSpecified | PartNotFound | PartOutOfStock
    | DecodeFailed | ContextDone | SendFailed

  // The order service's counters.
  datatype Meter = Meter(created: nat, paid: nat, revenue: map<PaymentMethod, int>) {
    function RevenueOf(m: PaymentMethod): int {
      if m in revenue then revenue[m] else 0
    }
  }

  /** Everything the services share: the orders table, the payment store, the two
      topics as grow-only logs, and the counters (absent when metrics are off). */
  datatype Sys = Sys(
    rows: map<Uuid, Order>,
    txs: map<Uuid, Transaction>,
    paidLog: seq<OrderPaid>,
    shipLog: seq<ShipAssembled>,
    meter: Option<Meter>)

  function Fresh(metered: bool): Sys {
    Sys(map[], map[], [], [], if metered then Some(Meter(0, 0, map[])) else None)
  }
}
