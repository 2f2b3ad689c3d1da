/** The user record (src/services/users.ts). The mock table and the
    asynchronous getter of that file are data and I/O, not modelled. */
module Users {
  import opened Basics

  datatype SubscriptionStatus = Active | Inactive | Trial | Expired

  datatype User = User(
    id: string,
    name: string,
    email: string,
    subscriptionStatus: SubscriptionStatus,
    joinedDate: int,             // epoch milliseconds
    isAdmin: Option<bool>,
    avatarUrl: Option<string>,
    planName: Option<string>)
}
