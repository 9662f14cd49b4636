/**
 * The cached user record of the client (ios/KinexFit/Models/User.swift): the
 * subscription tier and status enums, the per-tier quota limits, the display
 * name, and the mapping between a `User` and a row of the local `users` table.
 */
module UserModel {
  import opened Wrappers

  /** Swift's `Int.max` on the 64-bit platforms the app runs on. */
  const IntMax: int := 0x7FFF_FFFF_FFFF_FFFF

  /** Subscription tiers, in their declaration (and upgrade) order. */
  datatype SubscriptionTier = Free | Core | Pro | Elite

  /** Subscription states; `PastDue` is spelt "past_due" on the wire and in the database. */
  datatype SubscriptionStatus = Active | Canceled | PastDue | Trialing

  /** Position of a tier in `SubscriptionTier.allCases`: free < core < pro < elite. */
  function TierRank(t: SubscriptionTier): (rank: nat)
    ensures rank < 4
  {
    match t
    case Free => 0
    case Core => 1
    case Pro => 2
    case Elite => 3
  }

  function TierRawValue(t: SubscriptionTier): string {
    match t
    case Free => "free"
    case Core => "core"
    case Pro => "pro"
    case Elite => "elite"
  }

  /** `SubscriptionTier(rawValue:)`: `None` for any string that is not a raw value. */
  function TierFromRawValue(s: string): (t: Option<SubscriptionTier>)
    ensures t.Some? ==> TierRawValue(t.value) == s
  {
    if s == "free" then Some(Free)
    else if s == "core" then Some(Core)
    else if s == "pro" then Some(Pro)
    else if s == "elite" then Some(Elite)
    else None
  }

  function TierDisplayName(t: SubscriptionTier): string {
    match t
    case Free => "Free"
    case Core => "Core"
    case Pro => "Pro"
    case Elite => "Elite"
  }

  function StatusRawValue(s: SubscriptionStatus): string {
    match s
    case Active => "active"
    case Canceled => "canceled"
    case PastDue => "past_due"
    case Trialing => "trialing"
  }

  /** `SubscriptionStatus(rawValue:)`. */
  function StatusFromRawValue(s: string): (st: Option<SubscriptionStatus>)
    ensures st.Some? ==> StatusRawValue(st.value) == s
  {
    if s == "active" then Some(Active)
    else if s == "canceled" then Some(Canceled)
    else if s == "past_due" then Some(PastDue)
    else if s == "trialing" then Some(Trialing)
    else None
  }

  /** `SubscriptionTier.scanLimit`. */
  function ScanLimit(t: SubscriptionTier): (limit: int)
    ensures 0 < limit <= IntMax
    ensures limit == IntMax <==> t == Elite
  {
    match t
    case Free => 8
    case Core => 12
    case Pro => 60
    case Elite => IntMax
  }

  /** `User.aiQuotaLimit`. */
  function AiLimit(t: SubscriptionTier): (limit: int)
    ensures 0 < limit <= IntMax
    ensures limit == IntMax <==> t == Elite
  {
    match t
    case Free => 5
    case Core => 20
    case Pro => 100
    case Elite => IntMax
  }

  /** The authenticated user as cached on the device; `updatedAt` is a time in ms. */
  datatype User = User(
    id: string,
    email: string,
    firstName: Option<string>,
    lastName: Option<string>,
    subscriptionTier: SubscriptionTier,
    subscriptionStatus: Option<SubscriptionStatus>,
    scanQuotaUsed: int,
    aiQuotaUsed: int,
    onboardingCompleted: bool,
    updatedAt: int)

  /** `User.scanQuotaLimit`: the tier's scan limit. */
  function ScanQuotaLimit(u: User): (limit: int) {
    ScanLimit(u.subscriptionTier)
  }

  /** `User.aiQuotaLimit`. */
  function AiQuotaLimit(u: User): (limit: int) {
    AiLimit(u.subscriptionTier)
  }

  predicate IsNonEmpty(name: Option<string>) {
    name.Some? && name.value != ""
  }

  /** `User.displayName`. */
  function DisplayName(u: User): (name: string)
    ensures IsNonEmpty(u.firstName) ==> u.firstName.value <= name
    ensures IsNonEmpty(u.firstName) && !IsNonEmpty(u.lastName) ==> name == u.firstName.value
    ensures !IsNonEmpty(u.firstName) ==> name == u.email
  {
    if IsNonEmpty(u.firstName) then
      if IsNonEmpty(u.lastName) then u.firstName.value + " " + u.lastName.value
      else u.firstName.value
    else u.email
  }

  // ---------------------------------------------------------------------------
  // The `users` table row (GRDB `Row` / `PersistenceContainer`)

  /** The columns `User` maps; `subscriptionTier` is stored in the column named "tier". */
  datatype Column =
    | IdColumn | EmailColumn | FirstNameColumn | LastNameColumn | TierColumn
    | StatusColumn | ScanQuotaUsedColumn | AiQuotaUsedColumn | OnboardingCompletedColumn | UpdatedAtColumn

  function ColumnName(c: Column): string {
    match c
    case IdColumn => "id"
    case EmailColumn => "email"
    case FirstNameColumn => "firstName"
    case LastNameColumn => "lastName"
    case TierColumn => "tier"
    case StatusColumn => "subscriptionStatus"
    case ScanQuotaUsedColumn => "scanQuotaUsed"
    case AiQuotaUsedColumn => "aiQuotaUsed"
    case OnboardingCompletedColumn => "onboardingCompleted"
    case UpdatedAtColumn => "updatedAt"
  }

  /** A stored database value; `Null` is SQL NULL. */
  datatype DbValue = Text(text: string) | Integer(number: int) | Boolean(flag: bool) | Timestamp(millis: int) | Null

  type Row = map<Column, DbValue>

  /** An optional text column: absent, NULL, or text. */
  predicate IsOptionalText(row: Row, c: Column) {
    c !in row || row[c].Null? || row[c].Text?
  }

  /**
   * What `init(row:)` needs to read a row without a conversion failure: the
   * columns read as non-optional values are present with the right type.
   */
  predicate WellFormedRow(row: Row) {
    && IdColumn in row && row[IdColumn].Text?
    && EmailColumn in row && row[EmailColumn].Text?
    && ScanQuotaUsedColumn in row && row[ScanQuotaUsedColumn].Integer?
    && AiQuotaUsedColumn in row && row[AiQuotaUsedColumn].Integer?
    && UpdatedAtColumn in row && row[UpdatedAtColumn].Timestamp?
    && IsOptionalText(row, FirstNameColumn) && IsOptionalText(row, LastNameColumn)
    && IsOptionalText(row, TierColumn) && IsOptionalText(row, StatusColumn)
    && (OnboardingCompletedColumn !in row || row[OnboardingCompletedColumn].Null? || row[OnboardingCompletedColumn].Boolean?)
  }

  /** Reading an optional text column: NULL or absent reads as `nil`. */
  function OptionalText(row: Row, c: Column): (r: Option<string>)
    requires IsOptionalText(row, c)
    ensures r.Some? <==> c in row && row[c].Text?
  {
    if c in row && row[c].Text? then Some(row[c].text) else None
  }

  /** `User.init(row:)`. */
  function UserFromRow(row: Row): (u: User)
    requires WellFormedRow(row)
    ensures u.id == row[IdColumn].text && u.scanQuotaUsed == row[ScanQuotaUsedColumn].number
  {
    User(
      row[IdColumn].text,
      row[EmailColumn].text,
      OptionalText(row, FirstNameColumn),
      OptionalText(row, LastNameColumn),
      TierFromRawValue(OptionalText(row, TierColumn).GetOr("free")).GetOr(Free),
      match OptionalText(row, StatusColumn)
      case None => None
      case Some(s) => StatusFromRawValue(s),
      row[ScanQuotaUsedColumn].number,
      row[AiQuotaUsedColumn].number,
      if OnboardingCompletedColumn in row && row[OnboardingCompletedColumn].Boolean?
      then row[OnboardingCompletedColumn].flag else false,
      row[UpdatedAtColumn].millis)
  }

  function OptionalTextValue(s: Option<string>): DbValue {
    match s
    case None => Null
    case Some(t) => Text(t)
  }

  /** The columns `encode(to:)` writes for `u`: every mapped column, `nil` as NULL. */
  function EncodedColumns(u: User): (row: Row)
    ensures WellFormedRow(row)
  {
    map[
      IdColumn := Text(u.id),
      EmailColumn := Text(u.email),
      FirstNameColumn := OptionalTextValue(u.firstName),
      LastNameColumn := OptionalTextValue(u.lastName),
      TierColumn := Text(TierRawValue(u.subscriptionTier)),
      StatusColumn := if u.subscriptionStatus.Some? then Text(StatusRawValue(u.subscriptionStatus.value)) else Null,
      ScanQuotaUsedColumn := Integer(u.scanQuotaUsed),
      AiQuotaUsedColumn := Integer(u.aiQuotaUsed),
      OnboardingCompletedColumn := Boolean(u.onboardingCompleted),
      UpdatedAtColumn := Timestamp(u.updatedAt)]
  }

  /** GRDB's persistence container that `encode(to:)` fills column by column. */
  class PersistenceContainer {
    var columns: Row

    constructor ()
      ensures columns == map[]
    {
      columns := map[];
    }
  }

  /** `User.encode(to:)`: assigns every mapped column of the container in turn. */
  method EncodeUser(u: User, container: PersistenceContainer)
    modifies container
    ensures container.columns == old(container.columns) + EncodedColumns(u)
    ensures WellFormedRow(container.columns) && UserFromRow(container.columns) == u
  {
    var c := container.columns;
    c := c[IdColumn := Text(u.id)];
    c := c[EmailColumn := Text(u.email)];
    c := c[FirstNameColumn := OptionalTextValue(u.firstName)];
    c := c[LastNameColumn := OptionalTextValue(u.lastName)];
    c := c[TierColumn := Text(TierRawValue(u.subscriptionTier))];
    c := c[StatusColumn := if u.subscriptionStatus.Some? then Text(StatusRawValue(u.subscriptionStatus.value)) else Null];
    c := c[ScanQuotaUsedColumn := Integer(u.scanQuotaUsed)];
    c := c[AiQuotaUsedColumn := Integer(u.aiQuotaUsed)];
    c := c[OnboardingCompletedColumn := Boolean(u.onboardingCompleted)];
    c := c[UpdatedAtColumn := Timestamp(u.updatedAt)];
    var expected := old(container.columns) + EncodedColumns(u);
    forall k: Column ensures k in c && k in expected && c[k] == expected[k] {
      match k
      case IdColumn =>
      case EmailColumn =>
      case FirstNameColumn =>
      case LastNameColumn =>
      case TierColumn =>
      case StatusColumn =>
      case ScanQuotaUsedColumn =>
      case AiQuotaUsedColumn =>
      case OnboardingCompletedColumn =>
      case UpdatedAtColumn =>
    }
    assert c == expected;
    container.columns := c;
    RowRoundTrip(u, old(container.columns));
  }

  // ---------------------------------------------------------------------------
  // Properties

  /** Raw values round-trip, "past_due" included, and no other string decodes. */
  lemma RawValuesRoundTrip(t: SubscriptionTier, s: SubscriptionStatus)
    ensures TierFromRawValue(TierRawValue(t)) == Some(t)
    ensures StatusFromRawValue(StatusRawValue(s)) == Some(s)
    ensures StatusRawValue(PastDue) == "past_due" && StatusFromRawValue("pastDue") == None
  {
  }

  /** `encode(to:)` then `init(row:)` gives back the same user, whatever the container held. */
  lemma RowRoundTrip(u: User, earlier: Row)
    ensures WellFormedRow(earlier + EncodedColumns(u))
    ensures UserFromRow(earlier + EncodedColumns(u)) == u
  {
    var row := earlier + EncodedColumns(u);
    RawValuesRoundTrip(u.subscriptionTier, if u.subscriptionStatus.Some? then u.subscriptionStatus.value else Active);
    assert row[TierColumn] == Text(TierRawValue(u.subscriptionTier));
    assert OptionalText(row, FirstNameColumn) == u.firstName;
    assert OptionalText(row, LastNameColumn) == u.lastName;
  }

  /** `init(row:)` defaults: a missing or unknown tier is free, an unknown status is nil, a missing flag is false. */
  lemma RowDefaults(row: Row, s: string)
    requires WellFormedRow(row)
    ensures (TierColumn !in row || row[TierColumn].Null?) ==> UserFromRow(row).subscriptionTier == Free
    ensures TierFromRawValue(s).None? ==> UserFromRow(row[TierColumn := Text(s)]).subscriptionTier == Free
    ensures StatusColumn in row && row[StatusColumn].Text? && StatusFromRawValue(row[StatusColumn].text).None? ==>
              UserFromRow(row).subscriptionStatus == None
    ensures OnboardingCompletedColumn !in row ==> !UserFromRow(row).onboardingCompleted
  {
    var other := row[TierColumn := Text(s)];
    assert WellFormedRow(other);
    assert OptionalText(other, TierColumn) == Some(s);
  }

  /** Both limits grow (weakly) along free < core < pro < elite, elite being unlimited. */
  lemma LimitsMonotone(a: SubscriptionTier, b: SubscriptionTier)
    requires TierRank(a) <= TierRank(b)
    ensures ScanLimit(a) <= ScanLimit(b) && AiLimit(a) <= AiLimit(b)
    ensures ScanLimit(b) <= IntMax && AiLimit(b) <= IntMax
    ensures ScanLimit(Elite) == IntMax && AiLimit(Elite) == IntMax
  {
  }

  /** The display name: "first last" when both are set, the first name alone, else the email. */
  lemma DisplayNameCases(u: User)
    ensures IsNonEmpty(u.firstName) && IsNonEmpty(u.lastName) ==>
              DisplayName(u) == u.firstName.value + " " + u.lastName.value
    ensures IsNonEmpty(u.firstName) ==> DisplayName(u)[..|u.firstName.value|] == u.firstName.value
    ensures IsNonEmpty(u.firstName) && !IsNonEmpty(u.lastName) ==> DisplayName(u) == u.firstName.value
    ensures !IsNonEmpty(u.firstName) ==> DisplayName(u) == u.email
  {
  }
}
