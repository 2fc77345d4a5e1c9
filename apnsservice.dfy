/**
 * The exposed front door: the gateway hosts, and the registry of launched
 * connections keyed by app (the package-level mapAPNS). The package's
 * globals become the fields of one Registry object.
 */
module ApnsService {
  import opened ApnsObject

  const SandboxGateway := "gateway.sandbox.push.apple.com"
  const SandboxFeedback := "feedback.sandbox.push.apple.com"
  const ProductionGateway := "gateway.push.apple.com"
  const ProductionFeedback := "feedback.push.apple.com"

  /** A set is empty or has a member; picking the next app to close needs
      the second half. */
  lemma EmptyOrMember(s: set<int>)
    ensures s == {} || exists k :: k in s
  {
    if !(exists k :: k in s) {
      assert s == {};
    }
  }

  /** mapAPNS, pushURL and feedbackURL */
  class Registry {
    var connections: map<int, Connection>
    var pushURL: string
    var feedbackURL: string

    /** Every registered connection is valid, and no connection is
        registered under two apps (each launch allocates a new one). */
    ghost predicate Valid()
      reads this, connections.Values
    {
      && (forall k | k in connections :: connections[k].Valid())
      && (forall k, k' | k in connections && k' in connections && k != k' :: connections[k] != connections[k'])
    }

    /** init: an empty map; the URLs are Go's zero strings until InitURLs. */
    constructor ()
      ensures Valid() && connections == map[] && pushURL == "" && feedbackURL == ""
    {
      connections := map[];
      pushURL, feedbackURL := "", "";
    }

    /** InitURLs: the sandbox hosts when `isDev`, the production hosts
        otherwise. */
    method InitURLs(isDev: bool)
      modifies this`pushURL, this`feedbackURL
      ensures isDev ==> pushURL == SandboxGateway && feedbackURL == SandboxFeedback
      ensures !isDev ==> pushURL == ProductionGateway && feedbackURL == ProductionFeedback
    {
      if isDev {
        pushURL := SandboxGateway;
        feedbackURL := SandboxFeedback;
      } else {
        pushURL := ProductionGateway;
        feedbackURL := ProductionFeedback;
      }
    }

    /** LaunchConnection: with push enabled, a new connection is launched
        and registered under `appID` if and only if its launch succeeds. */
    method LaunchConnection(appID: int, appString: string, isPushEnabled: int, appCert: AppCert,
                            isLogging: bool, logOpens: bool, feedbackOk: bool)
      returns (r: Outcome)
      requires Valid()
      modifies this`connections
      ensures Valid()
      ensures isPushEnabled != 1 ==> r == Ok && connections == old(connections)
      ensures isPushEnabled == 1 ==> r == LaunchOutcome(CertsFound, logOpens, feedbackOk)
      ensures r.Err? ==> connections == old(connections)
      ensures isPushEnabled == 1 && r.Ok? ==>
        && connections.Keys == old(connections.Keys) + {appID}
        && (forall k | k in old(connections) && k != appID :: connections[k] == old(connections[k]))
        && fresh(connections[appID])
        && connections[appID].appID == appID && connections[appID].stringID == appString
        && connections[appID].cert == Some(appCert)
        && connections[appID].status == Active && connections[appID].isLogging == isLogging
        && connections[appID].gatewayHost == pushURL && connections[appID].feedbackHost == feedbackURL
    {
      if isPushEnabled == 1 {
        var c := new Connection(appID, appString, Some(appCert));
        var err := c.Launch(isLogging, pushURL, feedbackURL, logOpens, feedbackOk);
        if err.Err? {
          return err;
        }
        connections := connections[appID := c];
      }
      return Ok;
    }

    /** PushOne: hands the payload to the app's connection, if registered. */
    method PushOne(appID: int, payload: Payload)
      requires Valid()
      modifies connections.Values
      ensures Valid()
      ensures appID !in connections ==> unchanged(connections.Values)
      ensures appID in connections ==>
        var c: Connection := connections[appID];
        && c.sendQueue == old(c.sendQueue) + (if c.status == Active then [payload] else [])
        && unchanged(c`status, c`isLogging, c`logQueue, c`done, c`workers, c`gatewayHost, c`feedbackHost)
        && forall k | k in connections && k != appID :: unchanged(connections[k])
    {
      if appID in connections {
        connections[appID].PushOne(payload);
      }
    }

    /** CloseConnection: closes the app's connection, if registered. */
    method CloseConnection(appID: int)
      requires Valid()
      modifies connections.Values
      ensures Valid()
      ensures appID !in connections ==> unchanged(connections.Values)
      ensures appID in connections ==>
        var c: Connection := connections[appID];
        && c.status == CloseStatus(old(c.status))
        && c.done == (old(c.done) || old(c.status) == Active)
        && unchanged(c`isLogging, c`sendQueue, c`logQueue, c`workers, c`gatewayHost, c`feedbackHost)
        && forall k | k in connections && k != appID :: unchanged(connections[k])
    {
      if appID in connections {
        connections[appID].Close();
      }
    }

    /** CloseAllConnections: afterwards no registered connection is Active;
        the registry keeps its keys. */
    method CloseAllConnections()
      requires Valid()
      modifies connections.Values
      ensures Valid() && connections == old(connections)
      ensures forall k | k in connections :: connections[k].status == CloseStatus(old(connections[k].status))
      ensures forall k | k in connections :: connections[k].status != Active
      ensures forall k | k in connections :: connections[k].done == (old(connections[k].done) || old(connections[k].status) == Active)
      ensures forall k | k in connections ::
        var c: Connection := connections[k];
        unchanged(c`isLogging, c`sendQueue, c`logQueue, c`workers, c`gatewayHost, c`feedbackHost)
    {
      var todo := connections.Keys;
      while todo != {}
        invariant todo <= connections.Keys
        invariant Valid()
        invariant forall k | k in connections && k !in todo :: connections[k].ClosedSince()
        invariant forall k | k in todo :: unchanged(connections[k])
        decreases todo
      {
        EmptyOrMember(todo);
        var k :| k in todo;
        connections[k].Close();
        todo := todo - {k};
      }
    }
  }
}
