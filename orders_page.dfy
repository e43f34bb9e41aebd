/** The order list. The orders are a fixed table in the page; each is rendered as a card with
    a status badge and icon, the payment status, the tracking number and the items. */
module OrdersPage {
  import opened Wrappers
  import opened Text

  /** The badge variants the page uses. */
  datatype BadgeVariant = Default | Secondary | Outline | Destructive

  datatype Icon = PackageIcon | TruckIcon

  /** `getStatusColor`: a variant per known status, outline for any other. */
  function StatusColor(status: string): (v: BadgeVariant)
    ensures v == Default <==> status == "delivered"
    ensures v == Secondary <==> status == "shipped"
    ensures v == Destructive <==> status == "cancelled"
    ensures v == Outline <==> status !in {"delivered", "shipped", "cancelled"}
  {
    match status
    case "delivered" => Default
    case "shipped" => Secondary
    case "processing" => Outline
    case "cancelled" => Destructive
    case _ => Outline
  }

  /** `getStatusIcon`: the truck for a shipped order, the package for every other status. */
  function StatusIcon(status: string): (i: Icon)
    ensures i == TruckIcon <==> status == "shipped"
  {
    match status
    case "delivered" => PackageIcon
    case "shipped" => TruckIcon
    case "processing" => PackageIcon
    case _ => PackageIcon
  }

  /** The truck icon goes with the secondary badge and with no other. */
  lemma TruckIffSecondary(status: string)
    ensures StatusIcon(status) == TruckIcon <==> StatusColor(status) == Secondary
  {
  }

  /** The status text with its first character upper-cased (ASCII letters only) and the rest
      as it is; the empty status stays empty. */
  function StatusLabel(status: string): (l: string)
    ensures |l| == |status|
    ensures |status| > 0 ==> l[0] == UpperChar(status[0]) && l[1..] == status[1..]
  {
    if status == "" then "" else [UpperChar(status[0])] + status[1..]
  }

  /** A status that starts with a lower-case ASCII letter gets the capital of that letter. */
  lemma {:induction false} LowerInitialCapitalised(first: char, rest: string)
    requires 'a' <= first <= 'z'
    ensures StatusLabel([first] + rest) == [(first as int - 32) as char] + rest
  {
    assert ([first] + rest)[0] == first && ([first] + rest)[1..] == rest;
  }

  /** The label of a shipped order. */
  lemma ShippedLabel()
    ensures StatusLabel("shipped") == "Shipped"
  {
    LowerInitialCapitalised('s', "hipped");
    assert "shipped" == ['s'] + "hipped";
  }

  /** Labelling twice is labelling once. */
  lemma {:induction false} StatusLabelIdempotent(status: string)
    ensures StatusLabel(StatusLabel(status)) == StatusLabel(status)
  {
    if status != "" {
      var l := StatusLabel(status);
      assert l[0] == UpperChar(status[0]) && l[1..] == status[1..];
      assert UpperChar(UpperChar(status[0])) == UpperChar(status[0]);
      assert StatusLabel(l) == [UpperChar(l[0])] + l[1..];
    }
  }

  /** The payment badge is the default variant for a paid order, outline otherwise. */
  function PaymentBadge(paymentStatus: string): (v: BadgeVariant)
    ensures v == Default <==> paymentStatus == "paid"
    ensures v != Default ==> v == Outline
  {
    if paymentStatus == "paid" then Default else Outline
  }

  /** The tracking cell: the number when there is a non-empty one, "Not assigned" otherwise. */
  function TrackingText(trackingNumber: Option<string>): (t: string)
    ensures Truthy(trackingNumber) ==> t == trackingNumber.value
    ensures !Truthy(trackingNumber) ==> t == "Not assigned"
  {
    if Truthy(trackingNumber) then trackingNumber.value else "Not assigned"
  }

  /** The "Track Order" button is shown exactly when there is a tracking number, that is,
      exactly when the tracking cell does not say "Not assigned" (for numbers other than that
      text). */
  predicate ShowTrackButton(trackingNumber: Option<string>) {
    Truthy(trackingNumber)
  }

  lemma TrackButtonIffAssigned(trackingNumber: Option<string>)
    requires trackingNumber != Some("Not assigned")
    ensures ShowTrackButton(trackingNumber) <==> TrackingText(trackingNumber) != "Not assigned"
  {
  }

  datatype OrderItem = OrderItem(name: string, quantity: nat, price: nat)

  datatype Order = Order(
    orderNumber: string, total: nat, status: string, paymentMethod: string,
    paymentStatus: string, trackingNumber: Option<string>, items: seq<OrderItem>)

  /** The page's table of orders (dates left out). */
  const Orders: seq<Order> := [
    Order("FS123456", 45000, "delivered", "UPI", "paid", Some("TRK789012345"),
          [OrderItem("Modern Sofa", 1, 45000)]),
    Order("FS123457", 80000, "shipped", "Card", "paid", Some("TRK789012346"),
          [OrderItem("Dining Table Set", 1, 65000), OrderItem("Coffee Table", 1, 15000)]),
    Order("FS123458", 35000, "processing", "COD", "pending", None,
          [OrderItem("Queen Bed Frame", 1, 35000)])
  ]

  function ItemsTotal(items: seq<OrderItem>): nat {
    if items == [] then 0 else items[0].quantity * items[0].price + ItemsTotal(items[1..])
  }

  /** One order's card. */
  datatype Card = Card(
    icon: Icon, statusBadge: BadgeVariant, statusLabel: string,
    paymentBadge: BadgeVariant, tracking: string, trackButton: bool, itemCount: nat)

  function CardFor(o: Order): (c: Card)
    ensures c.icon == TruckIcon <==> c.statusBadge == Secondary
    ensures c.trackButton <==> Truthy(o.trackingNumber)
    ensures c.itemCount == |o.items|
    ensures c.icon == StatusIcon(o.status) && c.statusBadge == StatusColor(o.status)
    ensures c.statusLabel == StatusLabel(o.status) && c.paymentBadge == PaymentBadge(o.paymentStatus)
    ensures c.tracking == TrackingText(o.trackingNumber)
  {
    TruckIffSecondary(o.status);
    Card(StatusIcon(o.status), StatusColor(o.status), StatusLabel(o.status),
         PaymentBadge(o.paymentStatus), TrackingText(o.trackingNumber),
         ShowTrackButton(o.trackingNumber), |o.items|)
  }

  /** The table is consistent: each total is the sum of its items, and only the undelivered
      order paid on delivery has neither a payment nor a tracking number. */
  lemma OrdersTableConsistent()
    ensures forall i :: 0 <= i < |Orders| ==> Orders[i].total == ItemsTotal(Orders[i].items)
    ensures forall i :: 0 <= i < |Orders| ==>
      (CardFor(Orders[i]).trackButton <==> CardFor(Orders[i]).paymentBadge == Default)
  {
    assert ItemsTotal(Orders[1].items) == 65000 + ItemsTotal(Orders[1].items[1..]);
  }
}
