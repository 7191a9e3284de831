/** The sync indicator of a collection
    (packages/bruno-app/src/components/GitSync/SyncStatus/index.js): nothing
    unless git sync is enabled, otherwise one colour and text chosen by
    priority: syncing, then error, then pending changes, then synced, then
    not synced. */
module SyncStatus {
  import opened JsRuntime
  import opened GitSlice

  datatype Color = Blue | Red | Yellow | Green | Gray

  /** What getStatusInfo returns. */
  datatype Indicator = Indicator(color: Color, text: string, pulse: bool)

  /** `${n} pending change${n > 1 ? 's' : ''}` */
  function PendingText(n: nat): string {
    NatToString(n) + " pending change" + (if n > 1 then "s" else "")
  }

  /** getStatusInfo. `error` and `lastSync` count when truthy. Each colour
      carries its own text, and only blue pulses. */
  function StatusInfo(g: GitState): (r: Indicator)
    ensures r.pulse <==> r.color == Blue
    ensures r.color == Yellow ==> g.pendingChanges > 0 && r.text == PendingText(g.pendingChanges)
    ensures r.color != Yellow ==> r.text == match r.color
                                           case Blue => "Syncing..."
                                           case Red => "Sync error"
                                           case Green => "Synced"
                                           case _ => "Not synced"
  {
    if g.syncing then Indicator(Blue, "Syncing...", true)
    else if Truthy(g.error) then Indicator(Red, "Sync error", false)
    else if g.pendingChanges > 0 then Indicator(Yellow, PendingText(g.pendingChanges), false)
    else if Truthy(g.lastSync) then Indicator(Green, "Synced", false)
    else Indicator(Gray, "Not synced", false)
  }

  /** The component: nothing for a missing or disabled entry. */
  function Shown(entry: Option<GitState>): Option<Indicator> {
    if entry.None? || !entry.value.enabled then None else Some(StatusInfo(entry.value))
  }

  /** The indicator is shown exactly for an entry that exists and is
      enabled. */
  lemma ShownIffEnabled(entry: Option<GitState>)
    ensures Shown(entry).Some? <==> entry.Some? && entry.value.enabled
    ensures Shown(entry).Some? ==> Shown(entry).value == StatusInfo(entry.value)
  {
  }

  /** Each colour stands for one rung of the priority ladder, and the dot
      pulses exactly while syncing. */
  lemma ColorMeaning(g: GitState)
    ensures StatusInfo(g).pulse <==> g.syncing
    ensures StatusInfo(g).color == Blue <==> g.syncing
    ensures StatusInfo(g).color == Red <==> !g.syncing && Truthy(g.error)
    ensures StatusInfo(g).color == Yellow <==> !g.syncing && !Truthy(g.error) && g.pendingChanges > 0
    ensures StatusInfo(g).color == Green
            <==> !g.syncing && !Truthy(g.error) && g.pendingChanges == 0 && Truthy(g.lastSync)
    ensures StatusInfo(g).color == Gray
            <==> !g.syncing && !Truthy(g.error) && g.pendingChanges == 0 && !Truthy(g.lastSync)
  {
  }

  /** The pending text starts with the count, which reads back as the
      count, and ends in "s" exactly when the count is above one. */
  lemma PendingTextPlural(n: nat)
    ensures var digits := NatToString(n);
      && |digits| <= |PendingText(n)|
      && PendingText(n)[..|digits|] == digits
      && DecimalValue(digits) == n
    ensures EndsWith(PendingText(n), "s") <==> n > 1
  {
    var digits := NatToString(n);
    var text := PendingText(n);
    assert text[..|digits|] == digits;
    NatToStringRoundTrip(n);
    if n <= 1 {
      assert text == digits + " pending change";
      assert text[|text| - 1] == 'e';
    }
  }

  /** The yellow text names the pending count. */
  lemma YellowShowsCount(g: GitState)
    requires StatusInfo(g).color == Yellow
    ensures StatusInfo(g).text == PendingText(g.pendingChanges)
    ensures g.pendingChanges > 0
  {
  }

  /** Once a sync completes the indicator is neither syncing nor in error:
      green when nothing is pending, yellow otherwise. */
  lemma AfterLastSync(g: GitState, now: string)
    requires now != ""
    ensures var c := StatusInfo(Apply(g, SetLastSync(now))).color;
      c == (if g.pendingChanges > 0 then Yellow else Green)
  {
  }

  /** A non-empty error shows red, and starting a sync shows blue. */
  lemma AfterErrorOrSyncing(g: GitState, e: Option<string>)
    ensures Truthy(e) ==> StatusInfo(Apply(g, SetError(e))).color == Red
    ensures !Truthy(e) ==> StatusInfo(Apply(g, SetError(e))).color != Red
    ensures StatusInfo(Apply(g, SetSyncing(true))) == Indicator(Blue, "Syncing...", true)
  {
  }
}
