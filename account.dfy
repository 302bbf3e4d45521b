/** A trading account as the accounts call decodes it. */
module Accounts {
  import opened Wrappers

  /** The fields of an `Account`, as a value (`type` is spelled `accountType`). */
  datatype AccountRecord = AccountRecord(
    accountType: Option<string>,
    number: Option<string>,
    status: Option<string>,
    isPrimary: bool,
    isBilling: bool,
    clientAccountType: Option<string>,
    userId: int)

  /** An `Account`. Its getters are plain reads of these fields; `SetUserId` is its only mutator. */
  class Account {
    var accountType: Option<string>
    var number: Option<string>
    var status: Option<string>
    var isPrimary: bool
    var isBilling: bool
    var clientAccountType: Option<string>
    var userId: int

    function Record(): AccountRecord
      reads this
    {
      AccountRecord(accountType, number, status, isPrimary, isBilling, clientAccountType, userId)
    }

    /** What the JSON decoder builds reflectively from one element of the `accounts` array. */
    constructor FromJson(r: AccountRecord)
      ensures Record() == r
    {
      accountType := r.accountType;
      number := r.number;
      status := r.status;
      isPrimary := r.isPrimary;
      isBilling := r.isBilling;
      clientAccountType := r.clientAccountType;
      userId := r.userId;
    }

    /** `setUserId`: overwrites the user id and nothing else. */
    method SetUserId(userId: int)
      modifies this`userId
      ensures Record() == old(Record()).(userId := userId)
    {
      this.userId := userId;
    }
  }
}
