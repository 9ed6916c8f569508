/**
 The record the JSON export serialises: a timestamp, the current statistics and
 series, and three fixed recent-activity entries that do not come from any live
 event log.
 */
module JsonReport {
  import opened DashboardData

  /** One entry of the recent-activity list; `kind` is the record's `type` key. */
  datatype Activity = Activity(kind: string, description: string, timestamp: string)

  datatype ExportDocument = ExportDocument(
    generatedAt: string,
    statistics: Stats,
    salesData: seq<SalesPoint>,
    userData: seq<UserSegment>,
    recentActivity: seq<Activity>)

  /** The three literal activity entries every export carries. */
  const RecentActivity: seq<Activity> := [
    Activity("registration", "New user registration - John Doe joined the platform", "2 minutes ago"),
    Activity("sale", "New sale - Order #1234 completed", "15 minutes ago"),
    Activity("product", "Product update - New product added to catalog", "1 hour ago")
  ]

  /** The document for a given state: the state as it is, stamped with `generatedAt`. */
  function Snapshot(generatedAt: string, stats: Stats, sales: seq<SalesPoint>, users: seq<UserSegment>)
    : (doc: ExportDocument)
    ensures doc.generatedAt == generatedAt
    ensures doc.statistics == stats && doc.salesData == sales && doc.userData == users
    ensures doc.recentActivity == RecentActivity
    ensures |doc.recentActivity| == 3
    ensures doc.recentActivity[0].kind == "registration"
    ensures doc.recentActivity[1].kind == "sale"
    ensures doc.recentActivity[2].kind == "product"
  {
    ExportDocument(generatedAt, stats, sales, users, RecentActivity)
  }

  /**
   Two snapshots are equal exactly when they were taken at the same time of the
   same state: the export loses nothing of the state, and the recent-activity
   list does not depend on it.
   */
  lemma SnapshotDeterminesState(
    t1: string, st1: Stats, s1: seq<SalesPoint>, u1: seq<UserSegment>,
    t2: string, st2: Stats, s2: seq<SalesPoint>, u2: seq<UserSegment>)
    ensures Snapshot(t1, st1, s1, u1) == Snapshot(t2, st2, s2, u2)
        <==> t1 == t2 && st1 == st2 && s1 == s2 && u1 == u2
    ensures Snapshot(t1, st1, s1, u1).recentActivity == Snapshot(t2, st2, s2, u2).recentActivity
  {
  }
}
