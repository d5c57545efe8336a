/** The membership record and the amount it defaults to when saved. */
module MembershipModel {
  import opened Common

  /** The fee per membership type, in shillings. */
  const MembershipAmounts: map<string, real> := map[
    "mwananchi" := 0.00,
    "bronze" := 5000.00,
    "silver" := 10000.00,
    "gold" := 25000.00,
    "platinum" := 50000.00
  ]

  /** `MEMBERSHIP_AMOUNTS.get(membership_type, Decimal('0.00'))`. */
  function TableAmount(membershipType: string): (a: real)
    ensures a >= 0.0
    ensures membershipType in MembershipAmounts ==> a == MembershipAmounts[membershipType]
    ensures membershipType !in MembershipAmounts ==> a == 0.0
  {
    if membershipType in MembershipAmounts then MembershipAmounts[membershipType] else 0.00
  }

  /**
   * The amount `save` leaves: an unset or zero amount is replaced by the table
   * value for the type, any other amount is kept.
   */
  function AmountAfterSave(membershipType: string, amount: Option<real>): (a: real)
    ensures amount.Some? && amount.value != 0.0 ==> a == amount.value
    ensures amount.None? || amount.value == 0.0 ==> a == TableAmount(membershipType)
    ensures a == 0.0 ==> TableAmount(membershipType) == 0.0
  {
    if amount.None? || amount.value == 0.00 then TableAmount(membershipType) else amount.value
  }

  /** Saving again changes nothing. */
  lemma SaveIdempotent(membershipType: string, amount: Option<real>)
    ensures AmountAfterSave(membershipType, Some(AmountAfterSave(membershipType, amount)))
         == AmountAfterSave(membershipType, amount)
  {
  }

  /** An amount the validator accepts (at least 0.00) stays non-negative through `save`. */
  lemma SaveKeepsNonNegative(membershipType: string, amount: Option<real>)
    requires amount.Some? ==> amount.value >= 0.0
    ensures AmountAfterSave(membershipType, amount) >= 0.0
  {
  }

  class Membership {
    var membershipType: string
    var paymentStatus: string
    var amount: Option<real>

    /** A new, unsaved record with the field defaults: payment pending, amount 0.00. */
    constructor (membershipType: string)
      ensures this.membershipType == membershipType
      ensures paymentStatus == "pending" && amount == Some(0.00)
    {
      this.membershipType := membershipType;
      paymentStatus := "pending";
      amount := Some(0.00);
    }

    /** `Membership.save`: defaults the amount, then persists. */
    method Save()
      modifies this
      ensures amount == Some(AmountAfterSave(old(membershipType), old(amount)))
      ensures membershipType == old(membershipType) && paymentStatus == old(paymentStatus)
    {
      if amount.None? || amount.value == 0.00 {
        amount := Some(TableAmount(membershipType));
      }
    }
  }
}
