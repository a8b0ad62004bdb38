/** The notification document of backend/model/notification.js: required
    fields, the `status` and `type` enumerations with the status default,
    the 30-day `expiresAt` default and `isExpired`. Times are milliseconds
    since the epoch, passed in as `now`. */
module NotificationSchema {
  import opened Basics

  datatype Kind = Order | OrderUpdate | Product | Offer | Payment | System | Message | Promotion | Wishlist | Restock

  datatype Status = Read | Unread | Archived

  function KindName(k: Kind): string {
    match k
    case Order => "order"
    case OrderUpdate => "order_update"
    case Product => "product"
    case Offer => "offer"
    case Payment => "payment"
    case System => "system"
    case Message => "message"
    case Promotion => "promotion"
    case Wishlist => "wishlist"
    case Restock => "restock"
  }

  /** The `type` enum validator: a name outside the list is rejected. */
  function ParseKind(s: string): Option<Kind> {
    if s == "order" then Some(Order)
    else if s == "order_update" then Some(OrderUpdate)
    else if s == "product" then Some(Product)
    else if s == "offer" then Some(Offer)
    else if s == "payment" then Some(Payment)
    else if s == "system" then Some(System)
    else if s == "message" then Some(Message)
    else if s == "promotion" then Some(Promotion)
    else if s == "wishlist" then Some(Wishlist)
    else if s == "restock" then Some(Restock)
    else None
  }

  function StatusName(st: Status): string {
    match st
    case Read => "read"
    case Unread => "unread"
    case Archived => "archived"
  }

  function ParseStatus(s: string): Option<Status> {
    if s == "read" then Some(Read)
    else if s == "unread" then Some(Unread)
    else if s == "archived" then Some(Archived)
    else None
  }

  /** The type enum accepts exactly the ten names, each naming one kind. */
  lemma KindNamesRoundTrip(k: Kind, s: string)
    ensures ParseKind(KindName(k)) == Some(k)
    ensures ParseKind(s) == Some(k) <==> s == KindName(k)
  {
  }

  /** The status enum accepts exactly the three names. */
  lemma StatusNamesRoundTrip(st: Status, s: string)
    ensures ParseStatus(StatusName(st)) == Some(st)
    ensures ParseStatus(s) == Some(st) <==> s == StatusName(st)
  {
  }

  /** Thirty days in milliseconds. */
  const ExpiryMs: int := 30 * 24 * 60 * 60 * 1000

  /** The fields a create request supplies; "" stands for a missing
      string, and `status` is `None` when not given. */
  datatype Draft = Draft(title: string, message: string, userId: string, kind: string, status: Option<string>,
                         image: Option<string>, shopId: Option<string>, clickAction: Option<string>)

  datatype Notification = Notification(title: string, message: string, status: Status, kind: Kind, userId: string,
                                       image: Option<string>, shopId: Option<string>, clickAction: Option<string>,
                                       createdAt: int, expiresAt: int)

  datatype SchemaError = MissingField(field: string) | NotInEnum(field: string, value: string)

  /** Casting and validating a draft at time `now`. */
  function Build(d: Draft, now: int): (r: Result<Notification, SchemaError>)
    ensures r.Ok? <==> d.title != "" && d.message != "" && d.userId != "" && ParseKind(d.kind).Some? &&
                       (d.status.None? || ParseStatus(d.status.value).Some?)
    ensures r.Ok? ==> r.value.title == d.title && r.value.message == d.message && r.value.userId == d.userId &&
                      KindName(r.value.kind) == d.kind &&
                      (d.status.None? ==> r.value.status == Unread) &&
                      (d.status.Some? ==> StatusName(r.value.status) == d.status.value) &&
                      r.value.createdAt == now && r.value.expiresAt == now + ExpiryMs
  {
    KindNamesRoundTrip(Order, d.kind);
    if d.title == "" then Err(MissingField("title"))
    else if d.message == "" then Err(MissingField("message"))
    else if d.kind == "" then Err(MissingField("type"))
    else if d.userId == "" then Err(MissingField("userId"))
    else match ParseKind(d.kind)
      case None => Err(NotInEnum("type", d.kind))
      case Some(k) =>
        var st := if d.status.None? then Some(Unread) else ParseStatus(d.status.value);
        if st.None? then Err(NotInEnum("status", d.status.value))
        else
          KindNamesRoundTrip(k, d.kind);
          StatusNamesRoundTrip(st.value, if d.status.Some? then d.status.value else "");
          Ok(Notification(d.title, d.message, st.value, k, d.userId, d.image, d.shopId, d.clickAction, now, now + ExpiryMs))
  }

  /** `expiresAt < new Date()`. */
  predicate IsExpired(n: Notification, now: int) {
    n.expiresAt < now
  }

  /** A notification built at `created` is not expired up to and including
      thirty days later, and is expired at every instant after that. */
  lemma FreshNotificationLivesThirtyDays(d: Draft, created: int, now: int)
    requires Build(d, created).Ok?
    ensures IsExpired(Build(d, created).value, now) <==> now > created + 2592000000
  {
  }
}
