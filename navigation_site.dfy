/**
  The first draft of the site base class (NavigationSite.cs): it collects
  floors and obstacles through two overridable collectors and announces the
  result through the `OnAnalysed` delegate. The collectors are whatever a
  concrete site returns (possibly null); their results are parameters here.
  The delegate is modelled by whether anything is subscribed and by a count
  of its invocations.
*/
module SiteAnalysis {
  import opened Wrappers
  import opened Scene

  /** One notification when the flag is set to true and someone listens. */
  function Notifications(value: bool, hasListeners: bool): (r: nat)
    ensures r <= 1
    ensures r == 1 <==> value && hasListeners
  {
    if value && hasListeners then 1 else 0
  }

  class NavigationSite {
    var isAnalysed: bool
    var floors: Option<seq<Node>>
    var obstacles: Option<seq<Node>>
    /** `OnAnalysed != null`. */
    var hasListeners: bool
    /** How many times `OnAnalysed` has been invoked. */
    var notifications: nat

    constructor (hasListeners: bool)
      ensures !isAnalysed && floors == None && obstacles == None
      ensures this.hasListeners == hasListeners && notifications == 0
    {
      isAnalysed := false;
      floors := None;
      obstacles := None;
      this.hasListeners := hasListeners;
      notifications := 0;
    }

    /**
      The `IsAnalysed` setter: it stores the value and, for true, invokes the
      delegate if it is set. There is no change check, so setting true twice
      notifies twice.
    */
    method SetIsAnalysed(value: bool)
      modifies this
      ensures isAnalysed == value
      ensures notifications == old(notifications) + Notifications(value, hasListeners)
      ensures floors == old(floors) && obstacles == old(obstacles) && hasListeners == old(hasListeners)
    {
      isAnalysed := value;
      if isAnalysed && hasListeners {
        notifications := notifications + 1;
      }
    }

    /**
      `Analyse`: clears the flag (which never notifies), stores the
      collectors' lists with null replaced by an empty list, then sets the
      flag, notifying listeners exactly once.
    */
    method Analyse(collectedFloors: Option<seq<Node>>, collectedObstacles: Option<seq<Node>>)
      modifies this
      ensures isAnalysed
      ensures floors == Some(collectedFloors.GetOr([]))
      ensures obstacles == Some(collectedObstacles.GetOr([]))
      ensures notifications == old(notifications) + Notifications(true, hasListeners)
      ensures hasListeners == old(hasListeners)
    {
      SetIsAnalysed(false);
      floors := Some(collectedFloors.GetOr([]));
      obstacles := Some(collectedObstacles.GetOr([]));
      SetIsAnalysed(true);
    }
  }

  /** Setting the flag to true twice in a row notifies a listener twice. */
  method NoChangeCheck() returns (count: nat)
    ensures count == 2
  {
    var site := new NavigationSite(true);
    site.SetIsAnalysed(true);
    site.SetIsAnalysed(true);
    count := site.notifications;
  }

  /** Clearing the flag never notifies, whoever listens. */
  method ClearingIsSilent(hasListeners: bool) returns (count: nat)
    ensures count == 0
  {
    var site := new NavigationSite(hasListeners);
    site.SetIsAnalysed(false);
    count := site.notifications;
  }

  /**
    Two analyses in a row with null collectors: the lists are empty rather
    than null, the flag is set, and a listener hears of both.
  */
  method AnalyseTwice() returns (floors: seq<Node>, obstacles: seq<Node>, analysed: bool, count: nat)
    ensures floors == [] && obstacles == []
    ensures analysed
    ensures count == 2
  {
    var site := new NavigationSite(true);
    site.Analyse(None, None);
    site.Analyse(None, None);
    floors := site.floors.GetOr([]);
    obstacles := site.obstacles.GetOr([]);
    analysed := site.isAnalysed;
    count := site.notifications;
  }
}
