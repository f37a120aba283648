/** The app tracker page: a list of applications with a category, a block switch and the
    minutes spent against a daily limit; the switch flips one app's block, the page counts the
    blocked apps and flags the apps at their limit. */
module AppsPage {

  datatype Category = Productive | Neutral | Distracting

  /** One tracked application; times are in minutes. The icon is not modelled. */
  datatype App = App(id: string, name: string, category: Category, blocked: bool,
                     timeSpent: int, limit: int)

  /** The list the page starts with. */
  function InitialApps(): seq<App> {
    [ App("1", "Chrome", Neutral, false, 45, 120),
      App("2", "Discord", Distracting, true, 30, 30),
      App("3", "Spotify", Neutral, false, 60, 180),
      App("4", "Steam", Distracting, true, 0, 30),
      App("5", "YouTube", Distracting, false, 25, 45) ]
  }

  /** `app` after the switch for `id` was flipped: only an app with that id changes. */
  function Flip(app: App, id: string): App {
    if app.id == id then app.(blocked := !app.blocked) else app
  }

  /** `toggleBlock(id)`: every app with the given id has its block flipped. */
  function ToggleBlock(apps: seq<App>, id: string): (r: seq<App>)
    ensures |r| == |apps|
    ensures forall i :: 0 <= i < |apps| ==> r[i].blocked == (apps[i].blocked != (apps[i].id == id))
    ensures forall i :: 0 <= i < |apps| ==> r[i].(blocked := apps[i].blocked) == apps[i]
  {
    seq(|apps|, i requires 0 <= i < |apps| => Flip(apps[i], id))
  }

  /** Flipping the same switch twice gives back the list it started from. */
  lemma ToggleTwiceRestores(apps: seq<App>, id: string)
    ensures ToggleBlock(ToggleBlock(apps, id), id) == apps
  {
    var r := ToggleBlock(ToggleBlock(apps, id), id);
    assert forall i :: 0 <= i < |apps| ==> r[i] == apps[i];
  }

  /** Flipping one switch leaves every other app exactly as it was. */
  lemma ToggleLeavesOthers(apps: seq<App>, id: string, i: int)
    requires 0 <= i < |apps| && apps[i].id != id
    ensures ToggleBlock(apps, id)[i] == apps[i]
  {
  }

  /** The "Apps Blocked" figure: how many apps are blocked. */
  function BlockedCount(apps: seq<App>): (n: nat)
    ensures n <= |apps|
    ensures n == 0 <==> forall i :: 0 <= i < |apps| ==> !apps[i].blocked
    ensures n == |apps| <==> forall i :: 0 <= i < |apps| ==> apps[i].blocked
  {
    if |apps| == 0 then 0
    else BlockedCount(apps[..|apps| - 1]) + (if apps[|apps| - 1].blocked then 1 else 0)
  }

  /** How many apps carry the id `id` and have block state `state`. */
  function CountWith(apps: seq<App>, id: string, state: bool): nat {
    if |apps| == 0 then 0
    else CountWith(apps[..|apps| - 1], id, state)
         + (if apps[|apps| - 1].id == id && apps[|apps| - 1].blocked == state then 1 else 0)
  }

  /** Flipping the switch for `id` blocks the unblocked apps with that id and unblocks the
      blocked ones, so the figure moves by their difference. */
  lemma {:induction false} ToggleCount(apps: seq<App>, id: string)
    ensures BlockedCount(ToggleBlock(apps, id))
            == BlockedCount(apps) + CountWith(apps, id, false) - CountWith(apps, id, true)
  {
    if |apps| > 0 {
      var init := apps[..|apps| - 1];
      assert ToggleBlock(apps, id)[..|apps| - 1] == ToggleBlock(init, id);
      ToggleCount(init, id);
    }
  }

  /** With ids unique, flipping an unblocked app adds one to the figure and flipping a
      blocked app takes one away. */
  lemma {:induction false} ToggleOneApp(apps: seq<App>, k: int)
    requires 0 <= k < |apps|
    requires forall i :: 0 <= i < |apps| && i != k ==> apps[i].id != apps[k].id
    ensures BlockedCount(ToggleBlock(apps, apps[k].id))
            == if apps[k].blocked then BlockedCount(apps) - 1 else BlockedCount(apps) + 1
  {
    ToggleCount(apps, apps[k].id);
    CountOnlyAt(apps, k, apps[k].blocked);
    CountOnlyAt(apps, k, !apps[k].blocked);
  }

  /** When only app `k` carries its id, it is counted once in its own state and never in the
      other. */
  lemma {:induction false} CountOnlyAt(apps: seq<App>, k: int, state: bool)
    requires 0 <= k < |apps|
    requires forall i :: 0 <= i < |apps| && i != k ==> apps[i].id != apps[k].id
    ensures CountWith(apps, apps[k].id, state) == if apps[k].blocked == state then 1 else 0
  {
    var last := |apps| - 1;
    var init := apps[..last];
    if k < last {
      CountOnlyAt(init, k, state);
    } else {
      NoneWith(init, apps[k].id, state);
    }
  }

  /** No app of the list carries the id, so none is counted. */
  lemma {:induction false} NoneWith(apps: seq<App>, id: string, state: bool)
    requires forall i :: 0 <= i < |apps| ==> apps[i].id != id
    ensures CountWith(apps, id, state) == 0
  {
    if |apps| > 0 {
      NoneWith(apps[..|apps| - 1], id, state);
    }
  }

  /** "Limit reached" is shown, and the progress bar turns red, once the time spent reaches
      the limit. */
  predicate LimitReached(app: App) {
    app.timeSpent >= app.limit
  }

  /** The page opens with Discord and Steam blocked, and only Discord at its limit. */
  lemma InitialState()
    ensures BlockedCount(InitialApps()) == 2
    ensures forall i :: 0 <= i < |InitialApps()| ==> (LimitReached(InitialApps()[i]) <==> i == 1)
  {
    var apps := InitialApps();
    assert apps[..1][..0] == [];
    assert BlockedCount(apps[..1]) == 0;
    assert apps[..2][..1] == apps[..1];
    assert BlockedCount(apps[..2]) == 1;
    assert apps[..3][..2] == apps[..2];
    assert BlockedCount(apps[..3]) == 1;
    assert apps[..4][..3] == apps[..3];
    assert BlockedCount(apps[..4]) == 2;
    assert apps[..4] == apps[..|apps| - 1];
  }

  /** `getCategoryColor`: the colour classes of a category's badge and icon. */
  function CategoryColor(c: Category): string {
    match c
    case Productive => "text-success border-success/30 bg-success/10"
    case Neutral => "text-muted-foreground border-border bg-secondary/50"
    case Distracting => "text-destructive border-destructive/30 bg-destructive/10"
  }

  /** Each category gets its own colour. */
  lemma CategoryColorsDiffer(a: Category, b: Category)
    requires a != b
    ensures CategoryColor(a) != CategoryColor(b)
  {
    assert |CategoryColor(Productive)| == 44;
    assert |CategoryColor(Neutral)| == 51;
    assert |CategoryColor(Distracting)| == 56;
  }
}
