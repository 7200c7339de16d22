/**
 * `MasterApiService`: the client side of the handshake with the master
 * service. Its only state is the cluster id handed out by `register`; each of
 * its three calls sends exactly one request and throws the response when the
 * master does not answer with a success status.
 *
 * The transport is not modelled: each method takes the response the master
 * gives as a parameter, and records the request it sends in `requests`.
 */
module MasterApi {
  import opened Wrappers

  datatype HttpVerb = Post | Put

  /** Where the master should call this cluster back, and the secret it must present. */
  datatype Callback = Callback(url: string, token: string)

  /** The body of the register call. */
  datatype RegisterClusterRequest = RegisterClusterRequest(shardCount: int, callback: Callback)

  /** The three endpoints of the master, by the id text in their path. */
  datatype Route = Clusters | ClusterLogin(id: string) | ClusterReady(id: string)

  /** The path of a route, as the client writes it. */
  function Path(r: Route): string {
    match r
    case Clusters => "/clusters"
    case ClusterLogin(id) => "/clusters/" + id + "/login"
    case ClusterReady(id) => "/clusters/" + id + "/ready"
  }

  /**
   * One outbound request: `Path(route)` is resolved against `base` by the
   * transport, and `token` is sent as the bearer credential.
   */
  datatype Request = Request(verb: HttpVerb, base: string, route: Route, token: string,
                             body: Option<RegisterClusterRequest>)

  /** A response from the master: `ok` is a 2xx status, `body` the parsed JSON. */
  datatype Response<B> = Response(ok: bool, body: B)

  datatype RegisterClusterResponse = RegisterClusterResponse(id: string)

  datatype LoginClusterResponse = LoginClusterResponse(shardList: seq<int>, totalShards: int)

  /** The configuration values the client reads. */
  datatype ClusterConfig = ClusterConfig(
    shardCount: int,
    callbackUrl: string,
    apiSecret: string,
    masterUrl: string,
    masterToken: string)

  /**
   * The text a template literal makes of the stored id: before a successful
   * `register` the field is `undefined`, which prints as "undefined".
   */
  function IdText(id: Option<string>): string {
    match id
    case Some(s) => s
    case None => "undefined"
  }

  function LoginPath(id: Option<string>): string {
    Path(ClusterLogin(IdText(id)))
  }

  function ReadyPath(id: Option<string>): string {
    Path(ClusterReady(IdText(id)))
  }

  function RegisterRequest(config: ClusterConfig): Request {
    Request(Post, config.masterUrl, Clusters, config.masterToken,
            Some(RegisterClusterRequest(config.shardCount,
                                        Callback(config.callbackUrl, config.apiSecret))))
  }

  function LoginRequest(config: ClusterConfig, id: Option<string>): Request {
    Request(Put, config.masterUrl, ClusterLogin(IdText(id)), config.masterToken, None)
  }

  function ReadyRequest(config: ClusterConfig, id: Option<string>): Request {
    Request(Put, config.masterUrl, ClusterReady(IdText(id)), config.masterToken, None)
  }

  /** The login path names one cluster: two ids with the same path are the same id. */
  lemma LoginPathDeterminesId(a: Option<string>, b: Option<string>)
    requires LoginPath(a) == LoginPath(b)
    ensures IdText(a) == IdText(b)
  {
    PathDeterminesRoute(ClusterLogin(IdText(a)), ClusterLogin(IdText(b)));
  }

  /** The ready path names one cluster too. */
  lemma ReadyPathDeterminesId(a: Option<string>, b: Option<string>)
    requires ReadyPath(a) == ReadyPath(b)
    ensures IdText(a) == IdText(b)
  {
    PathDeterminesRoute(ClusterReady(IdText(a)), ClusterReady(IdText(b)));
  }

  /** No two endpoints share a path: the path sent determines the route. */
  lemma PathDeterminesRoute(a: Route, b: Route)
    requires Path(a) == Path(b)
    ensures a == b
  {
    var p := Path(a);
    if a.Clusters? || b.Clusters? {
      assert |Path(Clusters)| == 9 < |Path(ClusterLogin(""))| == |Path(ClusterReady(""))|;
    } else {
      assert p[|p| - 1] == if a.ClusterLogin? then 'n' else 'y';
      assert Path(b)[|p| - 1] == if b.ClusterLogin? then 'n' else 'y';
      assert p[10..|p| - 6] == a.id;
      assert Path(b)[10..|p| - 6] == b.id;
    }
  }

  /** No login request can be mistaken for a ready request or a register request. */
  lemma RequestsAreDistinct(config: ClusterConfig, a: Option<string>, b: Option<string>)
    ensures Path(LoginRequest(config, a).route) != Path(ReadyRequest(config, b).route)
    ensures Path(LoginRequest(config, a).route) != Path(RegisterRequest(config).route)
    ensures Path(ReadyRequest(config, a).route) != Path(RegisterRequest(config).route)
  {
    var l, r := LoginPath(a), ReadyPath(b);
    assert l[|l| - 1] == 'n' && r[|r| - 1] == 'y';
    assert |Path(Clusters)| == 9;
  }

  class MasterApiService {
    const config: ClusterConfig
    /** `None` until a successful `Register`: the field is `undefined` then. */
    var clusterId: Option<string>
    /** Every request sent so far, in order. */
    var requests: seq<Request>

    constructor (config: ClusterConfig)
      ensures this.config == config && clusterId == None && requests == []
    {
      this.config := config;
      clusterId := None;
      requests := [];
    }

    /**
     * POST /clusters with the shard count and the callback descriptor. A
     * success stores the returned id; a failure throws the response and keeps
     * the old id.
     */
    method Register(res: Response<RegisterClusterResponse>)
      returns (req: Request, r: Result<(), Response<RegisterClusterResponse>>)
      modifies this
      ensures req == RegisterRequest(config)
      ensures requests == old(requests) + [req]
      ensures res.ok ==> r == Ok(()) && clusterId == Some(res.body.id)
      ensures !res.ok ==> r == Err(res) && clusterId == old(clusterId)
    {
      req := RegisterRequest(config);
      requests := requests + [req];
      if !res.ok {
        return req, Err(res);
      }
      clusterId := Some(res.body.id);
      r := Ok(());
    }

    /** PUT /clusters/{id}/login: the master's body on success, the response thrown otherwise. */
    method Login(res: Response<LoginClusterResponse>)
      returns (req: Request, r: Result<LoginClusterResponse, Response<LoginClusterResponse>>)
      modifies this`requests
      ensures req == LoginRequest(config, clusterId)
      ensures requests == old(requests) + [req]
      ensures clusterId == old(clusterId)
      ensures r == if res.ok then Ok(res.body) else Err(res)
    {
      req := LoginRequest(config, clusterId);
      requests := requests + [req];
      if !res.ok {
        return req, Err(res);
      }
      r := Ok(res.body);
    }

    /** PUT /clusters/{id}/ready: nothing on success, the response thrown otherwise. */
    method Ready(res: Response<()>) returns (req: Request, r: Result<(), Response<()>>)
      modifies this`requests
      ensures req == ReadyRequest(config, clusterId)
      ensures requests == old(requests) + [req]
      ensures clusterId == old(clusterId)
      ensures r == if res.ok then Ok(()) else Err(res)
    {
      req := ReadyRequest(config, clusterId);
      requests := requests + [req];
      if !res.ok {
        return req, Err(res);
      }
      r := Ok(());
    }
  }
}
