/**
 The records the admin dashboard holds in its state, the payload the backend
 answers with, the hard-coded fallback dataset, and the one derived figure
 (active users as three quarters of all users, rounded down).
 */
module DashboardData {
  import opened Wrappers
  import opened Render

  /** One bar of the monthly sales chart: a month label and its sales figure. */
  datatype SalesPoint = SalesPoint(month: string, sales: Decimal)

  /** One slice of the user-distribution chart: a category label and its head count. */
  datatype UserSegment = UserSegment(name: string, value: nat)

  /** The headline figures shown on the four cards, plus the derived active-user count. */
  datatype Stats = Stats(
    totalUsers: nat,
    totalRevenue: Decimal,
    totalOrders: nat,
    conversionRate: Decimal,
    activeUsers: nat)

  /** The `stats` object of a backend answer; it may or may not carry an `activeUsers` of its own. */
  datatype ReceivedStats = ReceivedStats(
    totalUsers: nat,
    totalRevenue: Decimal,
    totalOrders: nat,
    conversionRate: Decimal,
    activeUsers: Option<nat>)

  /** A successfully parsed backend answer. */
  datatype Response = Response(
    salesData: seq<SalesPoint>,
    userData: seq<UserSegment>,
    stats: ReceivedStats)

  /** `Math.floor(totalUsers * 0.75)`: the largest natural whose fourfold does not exceed three times the total. */
  function EstimateActiveUsers(totalUsers: nat): (active: nat)
    ensures 4 * active <= 3 * totalUsers < 4 * active + 4
    ensures active <= totalUsers
  {
    3 * totalUsers / 4
  }

  /** The floor is unique: any natural bracketed as in `EstimateActiveUsers` is its value. */
  lemma EstimateActiveUsersUnique(totalUsers: nat, active: nat)
    requires 4 * active <= 3 * totalUsers < 4 * active + 4
    ensures active == EstimateActiveUsers(totalUsers)
  {
    var e := EstimateActiveUsers(totalUsers);
    assert 4 * e <= 3 * totalUsers < 4 * e + 4;
  }

  /** More users never means fewer estimated active users. */
  lemma {:induction false} EstimateActiveUsersMonotone(m: nat, n: nat)
    requires m <= n
    ensures EstimateActiveUsers(m) <= EstimateActiveUsers(n)
  {
    var a, b := EstimateActiveUsers(m), EstimateActiveUsers(n);
    assert 4 * a <= 3 * m <= 3 * n < 4 * b + 4;
  }

  /** The invariant the dashboard keeps: `activeUsers` is always derived from `totalUsers`. */
  predicate ActiveUsersDerived(st: Stats) {
    st.activeUsers == EstimateActiveUsers(st.totalUsers)
  }

  /**
   The statistics committed after a successful fetch: every received field is
   copied, and `activeUsers` is recomputed from `totalUsers`, overriding any
   value the backend sent.
   */
  function CommitStats(received: ReceivedStats): (st: Stats)
    ensures st.totalUsers == received.totalUsers
    ensures st.totalRevenue == received.totalRevenue
    ensures st.totalOrders == received.totalOrders
    ensures st.conversionRate == received.conversionRate
    ensures ActiveUsersDerived(st)
  {
    Stats(received.totalUsers, received.totalRevenue, received.totalOrders,
          received.conversionRate, EstimateActiveUsers(received.totalUsers))
  }

  /** What the backend sends as `activeUsers` has no effect on what is committed. */
  lemma CommitStatsIgnoresReceivedActiveUsers(a: ReceivedStats, b: ReceivedStats)
    requires a.(activeUsers := None) == b.(activeUsers := None)
    ensures CommitStats(a) == CommitStats(b)
  {
  }

  /** The statistics the dashboard starts with: every figure zero. */
  const InitialStats := Stats(0, Decimal(0, []), 0, Decimal(0, []), 0)

  /** The seven monthly sales points shown when retrieval fails. */
  const FallbackSales: seq<SalesPoint> := [
    SalesPoint("Jan", Decimal(4200, [])),
    SalesPoint("Feb", Decimal(3800, [])),
    SalesPoint("Mar", Decimal(5200, [])),
    SalesPoint("Apr", Decimal(6780, [])),
    SalesPoint("May", Decimal(7890, [])),
    SalesPoint("Jun", Decimal(8390, [])),
    SalesPoint("Jul", Decimal(9490, []))
  ]

  /** The four user segments shown when retrieval fails. */
  const FallbackUsers: seq<UserSegment> := [
    UserSegment("New Users", 450),
    UserSegment("Returning", 350),
    UserSegment("Inactive", 150),
    UserSegment("Premium", 200)
  ]

  /** The statistics shown when retrieval fails; conversion rate 5.2 is 5 and the digit 2. */
  const FallbackStats := Stats(2150, Decimal(45678, []), 524, Decimal(5, [2]), 1612)
}
