/** The router of the current integration (custom_components/freebox_home/router.py):
    it owns the node registry, refreshes it from the gateway every 30 seconds
    keeping only the supported categories, and `get_api` opens the client,
    retrying once after an authorisation error. */
module Router {
  import opened Values
  import opened BaseClass
  import opened Registry
  import Gateway
  import Host

  /** The categories update_all keeps. */
  const SUPPORTED_CATEGORIES: set<string> :=
    {"pir", "camera", "alarm", "dws", "kfb", "basic_shutter", "shutter"}

  /** What get_home_nodes does: return the node list or raise. */
  datatype Fetch = Fetched(nodes: seq<Node>) | FetchRaised(error: PyError)

  class FreeboxRouter {
    const host: string
    const port: Value
    const mac: string
    /** `self.nodes`, with `order` the order in which the dict iterates its keys. */
    var nodes: map<int, Node>
    var order: seq<int>
    ghost var events: seq<Host.Event>

    predicate Valid()
      reads this
    {
      Snapshot(nodes, order).Valid()
    }

    constructor (host: string, port: Value, fbxMac: string)
      ensures this.host == host && this.port == port
      ensures mac == "FbxHome_" + fbxMac
      ensures nodes == map[] && order == [] && Valid()
      ensures events == [Host.TrackTimeInterval(30)]
    {
      this.host := host;
      this.port := port;
      mac := "FbxHome_" + fbxMac;
      nodes := map[];
      order := [];
      events := [Host.TrackTimeInterval(30)];
    }

    /** update_all: merge the fetched supported nodes into the registry; an
        insufficient-permission error leaves the registry as it was and is
        swallowed; any other error propagates, also before any change. */
    method UpdateAll(api: Gateway.HomeApi, fetch: Fetch) returns (raised: Option<PyError>)
      requires Valid()
      modifies this, api
      ensures Valid()
      ensures api.calls == old(api.calls) + [Gateway.GetNodes]
      ensures fetch.Fetched? ==>
        && raised.None?
        && nodes == Merge(old(nodes), fetch.nodes, Some(SUPPORTED_CATEGORIES))
        && order == MergeOrder(old(nodes), old(order), fetch.nodes, Some(SUPPORTED_CATEGORIES))
      ensures fetch.FetchRaised? ==> nodes == old(nodes) && order == old(order)
      ensures fetch.FetchRaised? ==>
        raised == if fetch.error == InsufficientPermissionsError then None else Some(fetch.error)
      ensures events == old(events)
    {
      api.GetHomeNodes();
      match fetch {
        case FetchRaised(e) =>
          raised := if e == InsufficientPermissionsError then None else Some(e);
        case Fetched(ns) =>
          var i := 0;
          while i < |ns|
            invariant 0 <= i <= |ns|
            invariant nodes == Merge(old(nodes), ns[..i], Some(SUPPORTED_CATEGORIES))
            invariant order == MergeOrder(old(nodes), old(order), ns[..i], Some(SUPPORTED_CATEGORIES))
            invariant events == old(events)
            invariant api.calls == old(api.calls) + [Gateway.GetNodes]
          {
            var n := ns[i];
            if n.category in SUPPORTED_CATEGORIES {
              if n.id !in nodes {
                order := order + [n.id];
              }
              nodes := nodes[n.id := n];
            }
            assert ns[..i + 1][..i] == ns[..i];
            i := i + 1;
          }
          assert ns[..|ns|] == ns;
          MergeKeepsOrderValid(old(nodes), old(order), ns, Some(SUPPORTED_CATEGORIES));
          raised := None;
      }
    }
  }

  /** A refresh never drops a node, whatever it fetched. */
  lemma RefreshKeepsNodes(m: map<int, Node>, ns: seq<Node>, id: int)
    requires id in m
    ensures id in Merge(m, ns, Some(SUPPORTED_CATEGORIES))
  {
    MergeKeys(m, ns, Some(SUPPORTED_CATEGORIES), id);
  }

  /** A node of an unsupported category never enters the registry: every
      entry is an old one or a supported fetched node. */
  lemma RefreshStoresOnlySupported(m: map<int, Node>, ns: seq<Node>, id: int)
    requires id in Merge(m, ns, Some(SUPPORTED_CATEGORIES))
    requires id !in m
    ensures Merge(m, ns, Some(SUPPORTED_CATEGORIES))[id].category in SUPPORTED_CATEGORIES
    ensures Merge(m, ns, Some(SUPPORTED_CATEGORIES))[id] in ns
  {
    MergeOnlyStored(m, ns, Some(SUPPORTED_CATEGORIES), id);
  }

  // ---------------------------------------------------------------------
  // get_api

  /** How the gateway answers `api.open` followed by `system.get_config`. */
  datatype OpenAnswer = Accepted | Refused(error: PyError)

  /** The answer to the first attempt and to the attempt made after the token
      file was removed. */
  datatype OpenAnswers = OpenAnswers(first: OpenAnswer, afterRetry: OpenAnswer) {
    function ForRetry(retry: int): OpenAnswer {
      if retry == 0 then first else afterRetry
    }
  }

  datatype ApiStep = OpenAttempt(retry: int) | RemoveToken

  /** Whether get_api returned a client or raised, and what it did on the way. */
  datatype ApiOutcome = ApiOutcome(raised: Option<PyError>, steps: seq<ApiStep>)

  /** get_api(hass, host, port, retry): an authorisation error with retry == 0
      removes the token file and tries again with retry = 1; every other error,
      and an authorisation error on the retry, propagates. */
  function GetApi(retry: int, answers: OpenAnswers): (r: ApiOutcome)
    ensures |r.steps| >= 1 && r.steps[0] == OpenAttempt(retry)
    decreases if retry == 0 then 1 else 0
  {
    match answers.ForRetry(retry)
    case Accepted => ApiOutcome(None, [OpenAttempt(retry)])
    case Refused(e) =>
      if e == AuthorizationError && retry == 0 then
        var again := GetApi(1, answers);
        ApiOutcome(again.raised, [OpenAttempt(retry), RemoveToken] + again.steps)
      else
        ApiOutcome(Some(e), [OpenAttempt(retry)])
  }

  function Opens(steps: seq<ApiStep>): nat {
    if steps == [] then 0 else (if steps[0].OpenAttempt? then 1 else 0) + Opens(steps[1..])
  }

  /** At most two open attempts; exactly one when called with retry != 0. */
  lemma GetApiAtMostTwoOpens(retry: int, answers: OpenAnswers)
    ensures Opens(GetApi(retry, answers).steps) <= 2
    ensures retry != 0 ==> Opens(GetApi(retry, answers).steps) == 1
  {
    var r := GetApi(retry, answers);
    if retry == 0 && answers.first == Refused(AuthorizationError) {
      var again := GetApi(1, answers);
      assert r.steps == [OpenAttempt(0), RemoveToken] + again.steps;
      assert again.steps == [OpenAttempt(1)];
      assert Opens(r.steps) == 1 + Opens([RemoveToken] + again.steps);
      assert ([RemoveToken] + again.steps)[1..] == again.steps;
    }
  }

  /** The whole outcome of a first call: it succeeds iff the first attempt is
      accepted, or it is refused for authorisation and the retry is accepted;
      the token file is removed only in the authorisation case. */
  lemma GetApiFirstCall(answers: OpenAnswers)
    ensures var r := GetApi(0, answers);
      && (r.raised.None? <==>
          answers.first == Accepted
          || (answers.first == Refused(AuthorizationError) && answers.afterRetry == Accepted))
      && (RemoveToken in r.steps <==> answers.first == Refused(AuthorizationError))
      && (answers.first == Refused(AuthorizationError) && answers.afterRetry.Refused? ==>
            r.raised == Some(answers.afterRetry.error))
  {
    var r := GetApi(0, answers);
    if answers.first == Refused(AuthorizationError) {
      var again := GetApi(1, answers);
      assert r.steps == [OpenAttempt(0), RemoveToken] + again.steps;
      assert r.steps[1] == RemoveToken;
    } else {
      assert r.steps == [OpenAttempt(0)];
    }
  }

  /** An insufficient-permission error propagates at once, without retrying. */
  lemma GetApiPermissionNotRetried(retry: int, answers: OpenAnswers)
    requires answers.ForRetry(retry) == Refused(InsufficientPermissionsError)
    ensures GetApi(retry, answers) == ApiOutcome(Some(InsufficientPermissionsError), [OpenAttempt(retry)])
  {
  }
}
