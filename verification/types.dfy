/** The data shapes shared by the local store, the backup adapter and the app. */
module Types {

  datatype Option<+T> = None | Some(value: T)

  /** One logged pouch. `localDateString` is the calendar day computed when the
      log was made, and `nicotineAmount` is a snapshot of the per-pouch setting at
      that moment; neither is ever recomputed. Amounts are only copied, never
      computed with. */
  datatype Log = Log(
    id: string,
    timestamp: int,
    localDateString: string,
    count: int,
    nicotineAmount: real)

  datatype UserSettings = UserSettings(
    dailyGoal: int,
    nicotinePerPouch: real,
    costPerUnit: real,
    currencySymbol: string)

  /** The profile and access token handed over by the sign-in provider. */
  datatype UserInfo = UserInfo(
    id: string,
    email: string,
    givenName: string,
    familyName: string,
    imageUrl: string,
    accessToken: string)
}
