/**
 * The backend's users table (src/lib/dynamodb-users.ts): a DynamoDB table keyed
 * by `userId`, read by key and changed by single UpdateItem calls.
 *
 * UpdateItem follows DynamoDB's rules: it creates the item when the key is not
 * there yet (an upsert), and `SET a = a + :increment` fails as a whole when `a`
 * is missing from the item or is not a number. Any other failure of the service
 * call (network, throttling, permissions) is the `fault` parameter; the library
 * logs it and rethrows it unchanged.
 */
module DynamoUsers {
  import opened Wrappers

  /** The attribute values this table stores: strings, numbers and NULL. */
  datatype AttrValue = S(s: string) | N(n: int) | Null

  type Item = map<string, AttrValue>

  const UserIdAttr := "userId"
  const ScanQuotaAttr := "scanQuotaUsed"
  const AiQuotaAttr := "aiQuotaUsed"
  const UpdatedAtAttr := "updatedAt"

  /** `UpdateSubscriptionInput`; the expiry is an ISO-8601 string or null. */
  datatype UpdateSubscriptionInput = UpdateSubscriptionInput(
    subscriptionTier: string,
    subscriptionStatus: string,
    subscriptionExpiresAt: Option<string>,
    lastReceiptValidation: string)

  /** The `'scan' | 'ai'` parameter of `incrementUserQuota`. */
  datatype QuotaType = Scan | Ai

  datatype DynamoError =
    | ServiceFault(message: string)
    /** DynamoDB's ValidationException for an increment whose operand is missing or not a number. */
    | InvalidOperand(attribute: string)

  /** The counter `incrementUserQuota` targets: `'scan'` picks the scan counter, anything else the AI counter. */
  function QuotaField(q: QuotaType): (f: string)
    ensures f == ScanQuotaAttr <==> q == Scan
    ensures f == AiQuotaAttr <==> q == Ai
  {
    assert ScanQuotaAttr[0] != AiQuotaAttr[0];
    match q
    case Scan => ScanQuotaAttr
    case Ai => AiQuotaAttr
  }

  /** The five attributes the subscription update sets. */
  function SubscriptionAttributes(input: UpdateSubscriptionInput, now: string): map<string, AttrValue> {
    map[
      "subscriptionTier" := S(input.subscriptionTier),
      "subscriptionStatus" := S(input.subscriptionStatus),
      "subscriptionExpiresAt" := (match input.subscriptionExpiresAt case Some(e) => S(e) case None => Null),
      "lastReceiptValidation" := S(input.lastReceiptValidation),
      UpdatedAtAttr := S(now)]
  }

  /** The item an UpdateItem starts from: the stored one, or a fresh item holding only its key. */
  function ItemOrKey(items: map<string, Item>, userId: string): (item: Item)
    ensures userId in items ==> item == items[userId]
    ensures userId !in items ==> item == map[UserIdAttr := S(userId)]
  {
    if userId in items then items[userId] else map[UserIdAttr := S(userId)]
  }

  /** Every stored item carries its own key as its `userId` attribute. */
  predicate KeysConsistent(items: map<string, Item>) {
    forall k :: k in items ==> UserIdAttr in items[k] && items[k][UserIdAttr] == S(k)
  }

  /** The table after `updateUserSubscription`. */
  function AfterSubscription(items: map<string, Item>, userId: string, input: UpdateSubscriptionInput, now: string)
    : map<string, Item>
  {
    items[userId := ItemOrKey(items, userId) + SubscriptionAttributes(input, now)]
  }

  /** The table after `incrementUserQuota`, or the error that leaves it as it was. */
  function AfterIncrement(items: map<string, Item>, userId: string, q: QuotaType, now: string)
    : Result<map<string, Item>, DynamoError>
  {
    var item := ItemOrKey(items, userId);
    var field := QuotaField(q);
    if field in item && item[field].N? then
      Success(items[userId := item[field := N(item[field].n + 1)][UpdatedAtAttr := S(now)]])
    else Failure(InvalidOperand(field))
  }

  class UsersTable {
    var items: map<string, Item>

    ghost predicate Valid()
      reads this
    {
      KeysConsistent(items)
    }

    constructor ()
      ensures Valid() && items == map[]
    {
      items := map[];
    }

    /** `getUserById`: the stored item, or null when the key is absent; a fault is rethrown. */
    method GetUserById(userId: string, fault: Option<string>) returns (r: Result<Option<Item>, DynamoError>)
      ensures fault.Some? ==> r == Failure(ServiceFault(fault.value))
      ensures fault.None? ==> r.Success? && (r.value.Some? <==> userId in items)
      ensures fault.None? && userId in items ==> r.value.value == items[userId]
    {
      if fault.Some? {
        return Failure(ServiceFault(fault.value));
      }
      if userId in items {
        r := Success(Some(items[userId]));
      } else {
        r := Success(None);
      }
    }

    /** `updateUserSubscription`: one UpdateItem setting the five subscription attributes of `userId`. */
    method UpdateUserSubscription(userId: string, input: UpdateSubscriptionInput, now: string, fault: Option<string>)
      returns (r: Result<Unit, DynamoError>)
      requires Valid()
      modifies this
      ensures Valid()
      ensures fault.Some? ==> r == Failure(ServiceFault(fault.value)) && items == old(items)
      ensures fault.None? ==> r.Success? && items == AfterSubscription(old(items), userId, input, now)
    {
      if fault.Some? {
        return Failure(ServiceFault(fault.value));
      }
      SubscriptionKeepsKeys(items, userId, input, now);
      items := AfterSubscription(items, userId, input, now);
      r := Success(Unit);
    }

    /** `incrementUserQuota`: one UpdateItem adding 1 to the chosen counter and stamping `updatedAt`. */
    method IncrementUserQuota(userId: string, quotaType: QuotaType, now: string, fault: Option<string>)
      returns (r: Result<Unit, DynamoError>)
      requires Valid()
      modifies this
      ensures Valid()
      ensures fault.Some? ==> r == Failure(ServiceFault(fault.value)) && items == old(items)
      ensures fault.None? ==> match AfterIncrement(old(items), userId, quotaType, now)
                              case Success(after) => r.Success? && items == after
                              case Failure(e) => r == Failure(e) && items == old(items)
    {
      if fault.Some? {
        return Failure(ServiceFault(fault.value));
      }
      var item := ItemOrKey(items, userId);
      var field := QuotaField(quotaType);
      if !(field in item && item[field].N?) {
        return Failure(InvalidOperand(field));
      }
      IncrementKeepsKeys(items, userId, quotaType, now);
      items := items[userId := item[field := N(item[field].n + 1)][UpdatedAtAttr := S(now)]];
      r := Success(Unit);
    }
  }

  // ---------------------------------------------------------------------------
  // Properties

  /** The subscription update keeps every item's key attribute consistent. */
  lemma SubscriptionKeepsKeys(items: map<string, Item>, userId: string, input: UpdateSubscriptionInput, now: string)
    requires KeysConsistent(items)
    ensures KeysConsistent(AfterSubscription(items, userId, input, now))
  {
    var after := AfterSubscription(items, userId, input, now);
    assert UserIdAttr !in SubscriptionAttributes(input, now);
    assert after[userId][UserIdAttr] == ItemOrKey(items, userId)[UserIdAttr];
  }

  /** The increment keeps every item's key attribute consistent. */
  lemma IncrementKeepsKeys(items: map<string, Item>, userId: string, q: QuotaType, now: string)
    requires KeysConsistent(items)
    ensures AfterIncrement(items, userId, q, now).Success? ==> KeysConsistent(AfterIncrement(items, userId, q, now).value)
  {
  }

  /**
   * The subscription update writes exactly the five subscription attributes of
   * the item under `userId` (creating it when absent); every other attribute of
   * that item, the quota counters among them, and every other item stay as they were.
   */
  lemma SubscriptionUpdateFrame(items: map<string, Item>, userId: string, input: UpdateSubscriptionInput,
                                now: string, other: string, attr: string)
    ensures var after := AfterSubscription(items, userId, input, now);
            && after.Keys == items.Keys + {userId}
            && (other != userId && other in items ==> after[other] == items[other])
            && after[userId]["subscriptionTier"] == S(input.subscriptionTier)
            && after[userId]["subscriptionStatus"] == S(input.subscriptionStatus)
            && after[userId]["subscriptionExpiresAt"] == (if input.subscriptionExpiresAt.Some? then S(input.subscriptionExpiresAt.value) else Null)
            && after[userId]["lastReceiptValidation"] == S(input.lastReceiptValidation)
            && after[userId][UpdatedAtAttr] == S(now)
            && (attr !in SubscriptionAttributes(input, now) && userId in items ==>
                  (attr in after[userId] <==> attr in items[userId])
                  && (attr in items[userId] ==> after[userId][attr] == items[userId][attr]))
  {
  }

  /** In particular the quota counters survive a subscription update untouched. */
  lemma SubscriptionKeepsQuotas(items: map<string, Item>, userId: string, input: UpdateSubscriptionInput, now: string)
    requires userId in items
    ensures var after := AfterSubscription(items, userId, input, now)[userId];
            && (ScanQuotaAttr in after <==> ScanQuotaAttr in items[userId])
            && (ScanQuotaAttr in after ==> after[ScanQuotaAttr] == items[userId][ScanQuotaAttr])
            && (AiQuotaAttr in after <==> AiQuotaAttr in items[userId])
            && (AiQuotaAttr in after ==> after[AiQuotaAttr] == items[userId][AiQuotaAttr])
  {
    assert ScanQuotaAttr !in SubscriptionAttributes(input, now);
    assert AiQuotaAttr !in SubscriptionAttributes(input, now);
  }

  /**
   * The increment succeeds exactly when the chosen counter exists as a number;
   * it then adds exactly 1 to it and stamps `updatedAt`, and changes no other
   * attribute (the other counter and the subscription attributes included) and
   * no other item.
   */
  lemma IncrementFrame(items: map<string, Item>, userId: string, q: QuotaType, now: string, other: string, attr: string)
    ensures var field := QuotaField(q);
            var r := AfterIncrement(items, userId, q, now);
            && (r.Success? <==> userId in items && field in items[userId] && items[userId][field].N?)
            && (r.Failure? ==> r.error == InvalidOperand(field))
            && (r.Success? ==>
                  && r.value.Keys == items.Keys
                  && (other != userId && other in items ==> r.value[other] == items[other])
                  && r.value[userId][field] == N(items[userId][field].n + 1)
                  && r.value[userId][UpdatedAtAttr] == S(now)
                  && (attr != field && attr != UpdatedAtAttr ==>
                        (attr in r.value[userId] <==> attr in items[userId])
                        && (attr in items[userId] ==> r.value[userId][attr] == items[userId][attr])))
  {
  }

  /** An increment never creates an item: an unknown user is an error and the table is untouched. */
  lemma IncrementUnknownUser(items: map<string, Item>, userId: string, q: QuotaType, now: string)
    requires userId !in items
    ensures AfterIncrement(items, userId, q, now) == Failure(InvalidOperand(QuotaField(q)))
  {
    assert QuotaField(q) !in map[UserIdAttr := S(userId)];
  }

  /** The subscription update upserts: for an unknown user it creates an item holding the key and the five attributes. */
  lemma SubscriptionCreatesUnknownUser(items: map<string, Item>, userId: string, input: UpdateSubscriptionInput, now: string)
    requires userId !in items
    ensures var item := AfterSubscription(items, userId, input, now)[userId];
            item.Keys == {UserIdAttr} + SubscriptionAttributes(input, now).Keys && item[UserIdAttr] == S(userId)
  {
    assert UserIdAttr !in SubscriptionAttributes(input, now);
  }

  /** Two scan increments add two to the scan counter and leave the AI counter alone. */
  lemma TwoScanIncrements(items: map<string, Item>, userId: string, now1: string, now2: string)
    requires userId in items && ScanQuotaAttr in items[userId] && items[userId][ScanQuotaAttr].N?
    requires AiQuotaAttr in items[userId]
    ensures var once := AfterIncrement(items, userId, Scan, now1);
            && once.Success?
            && var twice := AfterIncrement(once.value, userId, Scan, now2);
            && twice.Success?
            && twice.value[userId][ScanQuotaAttr] == N(items[userId][ScanQuotaAttr].n + 2)
            && twice.value[userId][AiQuotaAttr] == items[userId][AiQuotaAttr]
  {
    IncrementFrame(items, userId, Scan, now1, userId, AiQuotaAttr);
    var once := AfterIncrement(items, userId, Scan, now1).value;
    IncrementFrame(once, userId, Scan, now2, userId, AiQuotaAttr);
  }
}
