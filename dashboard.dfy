/**
 * The farm dashboard: the latest reading of each of the two sensor nodes,
 * the time text of the last update, and the `loading`/`updating` flags of
 * the poll that merges the two channels.
 */
module Dashboard {
  import opened Wrappers
  import opened Remote

  /** One record of a node channel: four sensor fields and the creation time. */
  datatype NodeFeed = NodeFeed(field1: Option<string>, field2: Option<string>,
                               field3: Option<string>, field4: Option<string>,
                               createdAt: string)

  /** What a poll may change: the two node readings and the last-updated text. */
  datatype Readings = Readings(node1: Option<NodeFeed>, node2: Option<NodeFeed>, lastUpdated: string)

  /**
   * The effect of one `fetchData` on the readings.  Both channels are read
   * and decoded before anything is applied, so a failure of either one
   * leaves all three values as they were.  Otherwise each node takes its
   * channel's latest record when the channel returned one, and the time text
   * follows node 2 only, formatted from its creation time.  The two updates
   * run in order: a `null` body on channel 1 throws before either, one on
   * channel 2 throws after node 1 has been set.
   */
  function Merge(s: Readings, r1: Read<NodeFeed>, r2: Read<NodeFeed>,
                 formatTime: string -> string): (s': Readings)
    ensures !r1.Fetched? || r2.Failed? ==> s' == s
    ensures s'.node1 != s.node1 ==> !r2.Failed? && Latest(r1).Some? && s'.node1 == Latest(r1)
    ensures s'.node2 != s.node2 ==> r1.Fetched? && Latest(r2).Some? && s'.node2 == Latest(r2)
    ensures s'.lastUpdated != s.lastUpdated ==>
      r1.Fetched? && Latest(r2).Some? && s'.node2 == Latest(r2)
      && s'.lastUpdated == formatTime(Latest(r2).value.createdAt)
    ensures !r2.Failed? && Latest(r1).Some? ==> s'.node1 == Latest(r1)
    ensures r1.Fetched? && Latest(r2).Some? ==>
      s'.node2 == Latest(r2) && s'.lastUpdated == formatTime(Latest(r2).value.createdAt)
  {
    if !r1.Fetched? || r2.Failed? then s
    else
      var n1 := if |r1.feeds| > 0 then Some(r1.feeds[0]) else s.node1;
      if r2.Fetched? && |r2.feeds| > 0 then Readings(n1, Some(r2.feeds[0]), formatTime(r2.feeds[0].createdAt))
      else Readings(n1, s.node2, s.lastUpdated)
  }

  /**
   * The channels do not interfere: what one node ends up with depends on the
   * other channel only through whether that channel's read failed.
   */
  lemma ChannelIsolation(s: Readings, r: Read<NodeFeed>, a: seq<NodeFeed>, b: seq<NodeFeed>,
                         formatTime: string -> string)
    ensures Merge(s, r, Fetched(a), formatTime).node1 == Merge(s, r, Fetched(b), formatTime).node1
    ensures Merge(s, Fetched(a), r, formatTime).node2 == Merge(s, Fetched(b), r, formatTime).node2
    ensures Merge(s, Fetched(a), r, formatTime).lastUpdated
         == Merge(s, Fetched(b), r, formatTime).lastUpdated
  {
  }

  /** An empty feed list on one channel does not hold back the other channel's update. */
  lemma EmptyChannelDoesNotBlockOther(s: Readings, f: NodeFeed, formatTime: string -> string)
    ensures Merge(s, Fetched([]), Fetched([f]), formatTime)
         == Readings(s.node1, Some(f), formatTime(f.createdAt))
    ensures Merge(s, Fetched([f]), Fetched([]), formatTime)
         == Readings(Some(f), s.node2, s.lastUpdated)
  {
  }

  /** A successful read on one channel is discarded when the other channel fails. */
  lemma FailureDiscardsOtherChannel(s: Readings, f: NodeFeed, formatTime: string -> string)
    ensures Merge(s, Fetched([f]), Failed, formatTime) == s
    ensures Merge(s, Failed, Fetched([f]), formatTime) == s
  {
  }

  /**
   * A `null` body stops the update where it is read: on channel 1 nothing
   * changes, on channel 2 node 1 has already taken its new record while
   * node 2 and the time text keep theirs.
   */
  lemma NullBodyStopsMidway(s: Readings, f: NodeFeed, formatTime: string -> string)
    ensures Merge(s, NullBody, Fetched([f]), formatTime) == s
    ensures Merge(s, Fetched([f]), NullBody, formatTime) == Readings(Some(f), s.node2, s.lastUpdated)
  {
  }

  /** Applying the same two reads again changes nothing more. */
  lemma MergeIdempotent(s: Readings, r1: Read<NodeFeed>, r2: Read<NodeFeed>,
                        formatTime: string -> string)
    ensures Merge(Merge(s, r1, r2, formatTime), r1, r2, formatTime) == Merge(s, r1, r2, formatTime)
  {
  }

  /** The page's state. */
  class FarmDashboard {
    var node1: Option<NodeFeed>
    var node2: Option<NodeFeed>
    var lastUpdated: string
    var loading: bool
    var updating: bool

    function Current(): Readings
      reads this
    {
      Readings(node1, node2, lastUpdated)
    }

    /** No readings yet, the loading flag set and no update in progress. */
    constructor ()
      ensures Current() == Readings(None, None, "") && loading && !updating
    {
      node1, node2, lastUpdated := None, None, "";
      loading, updating := true, false;
    }

    /**
     * The start of `fetchData`, given the node values its closure sees:
     * `loading` when both are null, `updating` otherwise.
     */
    method BeginPoll(seen1: Option<NodeFeed>, seen2: Option<NodeFeed>)
      modifies this`loading, this`updating
      ensures seen1.None? && seen2.None? ==> loading && updating == old(updating)
      ensures seen1.Some? || seen2.Some? ==> updating && loading == old(loading)
    {
      if seen1.None? && seen2.None? {
        loading := true;
      } else {
        updating := true;
      }
    }

    /**
     * The rest of `fetchData`, once both reads have settled: the merge, then
     * both flags cleared whatever the outcome.
     */
    method CompletePoll(r1: Read<NodeFeed>, r2: Read<NodeFeed>, formatTime: string -> string)
      modifies this
      ensures Current() == Merge(old(Current()), r1, r2, formatTime)
      ensures !loading && !updating
    {
      if r1.Fetched? && !r2.Failed? {
        if |r1.feeds| > 0 {
          node1 := Some(r1.feeds[0]);
        }
        if r2.Fetched? && |r2.feeds| > 0 {
          node2 := Some(r2.feeds[0]);
          lastUpdated := formatTime(r2.feeds[0].createdAt);
        }
      }
      loading := false;
      updating := false;
    }
  }

  /** The whole page is replaced by the loading screen only while loading with no reading at all. */
  function ShowsLoadingScreen(loading: bool, node1: Option<NodeFeed>, node2: Option<NodeFeed>): (b: bool)
    ensures !loading ==> !b
    ensures node1.Some? || node2.Some? ==> !b
    ensures loading && node1 == None && node2 == None ==> b
  {
    loading && node1.None? && node2.None?
  }

  /**
   * One poll as the page runs it.  The interval callback keeps the
   * `fetchData` of the first render, whose closure sees both nodes as null,
   * so every poll raises `loading` rather than `updating`; the loading
   * screen still appears only while neither node has a reading, and the poll
   * ends with both flags down.
   */
  method Tick(d: FarmDashboard, r1: Read<NodeFeed>, r2: Read<NodeFeed>, formatTime: string -> string)
    returns (loadingScreen: bool)
    modifies d
    ensures loadingScreen <==> old(d.node1).None? && old(d.node2).None?
    ensures d.Current() == Merge(old(d.Current()), r1, r2, formatTime)
    ensures !d.loading && !d.updating
  {
    d.BeginPoll(None, None);
    loadingScreen := ShowsLoadingScreen(d.loading, d.node1, d.node2);
    d.CompletePoll(r1, r2, formatTime);
  }

  /** The four rows of a sensor card. */
  datatype Row = Temperature | Ph | WaterLevel | Light

  /** The field a row shows. */
  function FieldOf(feed: NodeFeed, row: Row): Option<string> {
    match row
    case Temperature => feed.field1
    case Ph => feed.field2
    case WaterLevel => feed.field3
    case Light => feed.field4
  }

  /** `data?.fieldN ?? "--"`: the raw text, or "--" for a missing node or a null field. */
  function RowText(data: Option<NodeFeed>, row: Row): (t: string)
    ensures data.None? ==> t == "--"
    ensures data.Some? && FieldOf(data.value, row).None? ==> t == "--"
    ensures data.Some? && FieldOf(data.value, row).Some? ==> t == FieldOf(data.value, row).value
  {
    if data.Some? && FieldOf(data.value, row).Some? then FieldOf(data.value, row).value else "--"
  }

  /** `??` is not `||`: an empty reading is shown as empty text, not as "--". */
  lemma EmptyReadingShownAsEmpty(feed: NodeFeed, row: Row)
    requires FieldOf(feed, row) == Some("")
    ensures RowText(Some(feed), row) == ""
  {
  }

  /** `lastUpdated || "Waiting for data..."`: the footer text is never empty. */
  function FooterText(lastUpdated: string): (t: string)
    ensures t != ""
    ensures lastUpdated != "" ==> t == lastUpdated
    ensures lastUpdated == "" ==> t == "Waiting for data..."
  {
    if lastUpdated == "" then "Waiting for data..." else lastUpdated
  }
}
