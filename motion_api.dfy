/** The controller's command layer for the robot (`SS8`): every motion, arm
    and camera order becomes one HTTP request to the robot's REST API, timed
    moves are converted to milliseconds of actuation and optionally waited
    for, and replies and exceptions become a return value or a callback.
    HTTP is a log of the requests sent, waiting is a clock of seconds slept,
    and each reply the robot would give is an input. */
module MotionApi {

  import opened Wrappers
  import opened Numeric
  import opened JpegFraming
  import opened UdpStream

  const DEFAULT_API_URL: string := "http://superscanner8000:80"
  const DEFAULT_TOP_CAM_URL: string := "http://superscanner8008:80"
  const DEFAULT_FRONT_CAM_URL: string := "http://superscanner8009:80"

  const DEFAULT_MOVING_DIST: real := 1000.0
  const DEFAULT_ROTATING_ANGLE: real := PY_PI / 2.0

  /** Milliseconds of actuation per radian of body rotation. */
  const BODY_ANGLE_TO_TIME: real := 1591.55

  /** Milliseconds of actuation per centimetre of body travel. */
  const BODY_DIST_TO_TIME: real := 66.0

  /** The UDP ports and interface the two camera receivers are built with. */
  const TOP_CAM_PORT: int := 12346
  const FRONT_CAM_PORT: int := 22222
  const ANY_INTERFACE: string := "0.0.0.0"

  /** The flags of the development configuration module. */
  datatype DevConfig = DevConfig(
    simulationMode: bool,
    connectToMovApi: bool,
    testSegWithVid: bool,
    connectToTopCam: bool,
    connectToFrontCam: bool)

  /** The JSON bodies the controller posts. */
  datatype Body =
    | NoBody
    | Millis(ms: real)                 // `{"ms": ms}`
    | ArmHome                          // `{"x": 0, "y": 0, "angles": true}`
    | ArmAt(x: real, y: real)          // `{"x": x, "y": y}`
    | CamAt(alpha: real, beta: real)   // `{"alpha": alpha, "beta": beta}`

  datatype Request = Post(url: string, body: Body) | Get(url: string)

  /** What a request ends with: an answer, whose body may fail to parse as
      JSON, or an exception (a connection error or any other). */
  datatype Reply =
    | Answered(status: int, json: Option<string>)
    | ConnectionFailed
    | Failed

  /** What `_send_req` does with a reply: the value it returns, and which of
      the `on_error` and `connection_lost_callback` callbacks it calls. */
  datatype Handling = Handling(value: Option<string>, onError: bool, connectionLost: bool)

  /** `_send_req`: the parsed JSON for status 200, `on_error` for any other
      status, and the connection-lost callback for every exception, the
      one `res.json()` raises on a body that is not JSON included. */
  function SendReq(reply: Reply): (h: Handling)
    ensures h.value.Some? <==> reply.Answered? && reply.status == 200 && reply.json.Some?
    ensures h.value.Some? ==> h.value == reply.json
    ensures h.onError <==> reply.Answered? && reply.status != 200
    ensures h.connectionLost <==> !(reply.Answered? && (reply.status != 200 || reply.json.Some?))
    ensures (if h.value.Some? then 1 else 0) + (if h.onError then 1 else 0) + (if h.connectionLost then 1 else 0) == 1
  {
    match reply
    case Answered(status, json) =>
      if status != 200 then Handling(None, true, false)
      else if json.Some? then Handling(json, false, false)
      else Handling(None, false, true)
    case ConnectionFailed => Handling(None, false, true)
    case Failed => Handling(None, false, true)
  }

  /** The orders the controller gives the robot. */
  datatype Command =
    | MoveForward(dist: real)
    | MoveBackward(dist: real)
    | RotateLeft(angle: real)
    | RotateRight(angle: real)
    | StopMov
    | GotoArm(x: real, y: real)
    | StopArm
    | GotoCamera(alpha: real, beta: real)
    | StopCam

  predicate Timed(c: Command) {
    c.MoveForward? || c.MoveBackward? || c.RotateLeft? || c.RotateRight?
  }

  /** The milliseconds of actuation a timed order asks for. */
  function ActuationMs(c: Command): real
    requires Timed(c)
  {
    match c
    case MoveForward(d) => d * BODY_DIST_TO_TIME
    case MoveBackward(d) => d * BODY_DIST_TO_TIME
    case RotateLeft(a) => a * BODY_ANGLE_TO_TIME
    case RotateRight(a) => a * BODY_ANGLE_TO_TIME
  }

  /** The request an order sends to the API at `api`. */
  function RequestFor(api: string, c: Command): (r: Request)
    ensures r.Post? && (Timed(c) <==> r.body.Millis?)
    ensures Timed(c) ==> r.body == Millis(ActuationMs(c))
  {
    match c
    case MoveForward(_) => Post(api + "/fwd", Millis(ActuationMs(c)))
    case MoveBackward(_) => Post(api + "/bwd", Millis(ActuationMs(c)))
    case RotateLeft(_) => Post(api + "/hlft", Millis(ActuationMs(c)))
    case RotateRight(_) => Post(api + "/hrgt", Millis(ActuationMs(c)))
    case StopMov => Post(api + "/stp", NoBody)
    case GotoArm(x, y) => Post(api + "/arm/goto", if x == 0.0 && y == 0.0 then ArmHome else ArmAt(x, y))
    case StopArm => Post(api + "/arm/stp", NoBody)
    case GotoCamera(a, b) => Post(api + "/cam/goto", CamAt(a, b))
    case StopCam => Post(api + "/cam/stp", NoBody)
  }

  /** The seconds an order waits after its request: `asyncio.sleep(ms *
      0.001)` for a timed order asked to wait, which returns at once for a
      delay that is not positive; nothing otherwise. */
  function Waited(c: Command, wait: bool): real {
    if wait && Timed(c) then (if ActuationMs(c) * 0.001 <= 0.0 then 0.0 else ActuationMs(c) * 0.001) else 0.0
  }

  /** What the controller has done to the outside world: the requests sent,
      how many times it called the connection-lost callback, and the seconds
      it has slept. */
  datatype Effects = Effects(sent: seq<Request>, lost: nat, clock: real)

  /** One order: no request in simulation mode; before `connect` the request
      lambda fails on the missing `api_url`, which `_send_req` catches as a
      lost connection; otherwise the request is sent and its reply handled.
      The wait happens in every case. */
  function Issue(cfg: DevConfig, api: Option<string>, c: Command, wait: bool, reply: Reply, e: Effects): Effects {
    var e1 :=
      if cfg.simulationMode then e
      else if api.None? then e.(lost := e.lost + 1)
      else e.(sent := e.sent + [RequestFor(api.value, c)],
              lost := e.lost + if SendReq(reply).connectionLost then 1 else 0);
    e1.(clock := e1.clock + Waited(c, wait))
  }

  /** One order of a run: what to do, whether to wait, and the reply. */
  datatype Order = Order(cmd: Command, wait: bool, reply: Reply)

  function RunOrders(cfg: DevConfig, api: Option<string>, orders: seq<Order>, e: Effects): Effects
    decreases |orders|
  {
    if orders == [] then e
    else RunOrders(cfg, api, orders[1..], Issue(cfg, api, orders[0].cmd, orders[0].wait, orders[0].reply, e))
  }

  /** The requests a run of orders sends, in order. */
  function RequestsFor(api: string, orders: seq<Order>): seq<Request> {
    seq(|orders|, i requires 0 <= i < |orders| => RequestFor(api, orders[i].cmd))
  }

  /** The total sleep of a run of orders. */
  function TotalWait(orders: seq<Order>): real
    decreases |orders|
  {
    if orders == [] then 0.0 else Waited(orders[0].cmd, orders[0].wait) + TotalWait(orders[1..])
  }

  /** A wait is never negative, and there is none unless asked for. */
  lemma WaitedBounds(c: Command, wait: bool)
    ensures 0.0 <= Waited(c, wait)
    ensures !wait || !Timed(c) ==> Waited(c, wait) == 0.0
  {
  }

  /** A timed order that waits sleeps exactly the milliseconds its request
      carries, converted to seconds, when those are not negative. */
  lemma SleepMatchesRequest(api: string, c: Command)
    requires Timed(c) && 0.0 <= ActuationMs(c)
    ensures Waited(c, true) * 1000.0 == RequestFor(api, c).body.ms
  {
  }

  /** Forward and backward travel, left and right rotation: the amount is
      scaled by the same factor, so equal amounts give equal times, and the
      two orders of a pair only differ in their endpoint. */
  lemma ConversionsPerPair(api: string, amount: real)
    ensures RequestFor(api, MoveForward(amount)).body == RequestFor(api, MoveBackward(amount)).body == Millis(amount * 66.0)
    ensures RequestFor(api, RotateLeft(amount)).body == RequestFor(api, RotateRight(amount)).body == Millis(amount * 1591.55)
    ensures RequestFor(api, MoveForward(amount)).url != RequestFor(api, MoveBackward(amount)).url
    ensures RequestFor(api, RotateLeft(amount)).url != RequestFor(api, RotateRight(amount)).url
  {
    assert (api + "/fwd")[|api| + 1] != (api + "/bwd")[|api| + 1];
    assert (api + "/hlft")[|api| + 2] != (api + "/hrgt")[|api| + 2];
  }

  /** The default arguments: `move_forward()` and `move_backward()` travel
      1000 cm, posting 66000 ms; `rotate_left()` and `rotate_right()` turn a
      quarter turn, posting about 2.5 s; `goto_arm()` sends the arm home and
      `goto_camera()` aims the camera at (0, 0). */
  lemma DefaultArgumentRequests(api: string)
    ensures RequestFor(api, MoveForward(DEFAULT_MOVING_DIST)) == Post(api + "/fwd", Millis(66000.0))
    ensures RequestFor(api, MoveBackward(DEFAULT_MOVING_DIST)) == Post(api + "/bwd", Millis(66000.0))
    ensures var ms := ActuationMs(RotateLeft(DEFAULT_ROTATING_ANGLE));
      ms == ActuationMs(RotateRight(DEFAULT_ROTATING_ANGLE)) && 2499.99 < ms < 2500.01
    ensures RequestFor(api, GotoArm(0.0, 0.0)) == Post(api + "/arm/goto", ArmHome)
    ensures RequestFor(api, GotoCamera(0.0, 0.0)) == Post(api + "/cam/goto", CamAt(0.0, 0.0))
  {
  }

  /** A negative rotation is posted as is, with negative milliseconds, and
      the wait after it returns at once. */
  lemma NegativeRotationPostsNegativeTime(api: string, angle: real)
    requires angle < 0.0
    ensures RequestFor(api, RotateLeft(angle)).body.ms < 0.0
    ensures RequestFor(api, RotateRight(angle)).body.ms < 0.0
    ensures Waited(RotateLeft(angle), true) == 0.0 && Waited(RotateRight(angle), true) == 0.0
  {
  }

  /** The arm is sent home (angles mode) exactly for the target (0, 0). */
  lemma ArmHomeOnlyAtOrigin(api: string, x: real, y: real)
    ensures RequestFor(api, GotoArm(x, y)).body == ArmHome <==> x == 0.0 && y == 0.0
    ensures !(x == 0.0 && y == 0.0) ==> RequestFor(api, GotoArm(x, y)).body == ArmAt(x, y)
  {
  }

  /** In simulation mode no order reaches the robot and no callback is
      called; only the waits happen. */
  lemma {:induction false} SimulationSendsNothing(cfg: DevConfig, api: Option<string>, orders: seq<Order>, e: Effects)
    requires cfg.simulationMode
    ensures RunOrders(cfg, api, orders, e) == e.(clock := e.clock + TotalWait(orders))
    decreases |orders|
  {
    if orders != [] {
      var e1 := Issue(cfg, api, orders[0].cmd, orders[0].wait, orders[0].reply, e);
      SimulationSendsNothing(cfg, api, orders[1..], e1);
    }
  }

  /** Connected and not simulating, a run of orders sends one request per
      order, in order, and sleeps the sum of their waits. */
  lemma {:induction false} ConnectedSendsInOrder(cfg: DevConfig, api: string, orders: seq<Order>, e: Effects)
    requires !cfg.simulationMode
    ensures RunOrders(cfg, Some(api), orders, e).sent == e.sent + RequestsFor(api, orders)
    ensures RunOrders(cfg, Some(api), orders, e).clock == e.clock + TotalWait(orders)
    decreases |orders|
  {
    if orders == [] {
      assert RequestsFor(api, orders) == [];
    } else {
      var e1 := Issue(cfg, Some(api), orders[0].cmd, orders[0].wait, orders[0].reply, e);
      ConnectedSendsInOrder(cfg, api, orders[1..], e1);
      assert RequestsFor(api, orders) == [RequestFor(api, orders[0].cmd)] + RequestsFor(api, orders[1..]);
    }
  }

  /** `init_api_connection`: the GET of `/status` answers 200; every other
      status and every exception count as failure. */
  predicate ApiReachable(reply: Reply) {
    reply.Answered? && reply.status == 200
  }

  /** `connect`'s verdict: the API check when enabled, then either the video
      file stand-in or the enabled camera receivers, in that order. */
  function ConnectVerdict(cfg: DevConfig, apiReply: Reply, videoOk: bool, topBound: bool, frontBound: bool): bool {
    if cfg.connectToMovApi && !ApiReachable(apiReply) then false
    else if cfg.testSegWithVid then videoOk
    else if cfg.connectToTopCam && !topBound then false
    else if cfg.connectToFrontCam && !frontBound then false
    else true
  }

  /** The address a receiver binds: an interface and a port argument, which
      may be text when the arguments are passed in the wrong places. */
  datatype PortArg = PortNumber(n: int) | PortText(s: string)

  datatype Binding = Binding(ip: string, port: PortArg)

  /** `socket.bind`: a numeric port in range is bound when it is free; a
      port that is not an integer raises. */
  predicate Binds(b: Binding, free: bool) {
    b.port.PortNumber? && 0 <= b.port.n < 65536 && free
  }

  /** `UDPReceiver(port, ip)` as written: the receiver's first parameter is
      the controller, so the port lands in it, the interface text lands in
      the port, and the interface keeps its default. */
  function ReceiverBindingAsWritten(port: int, ip: string): (b: Binding)
    ensures b.port.PortText?
  {
    Binding(ANY_INTERFACE, PortText(ip))
  }

  /** The receiver binding as intended: the given interface and port. */
  function ReceiverBinding(port: int, ip: string): (b: Binding)
    ensures 0 <= port < 65536 ==> (Binds(b, true) && !Binds(b, false))
  {
    Binding(ip, PortNumber(port))
  }

  /** As written, with either camera receiver enabled and no test video,
      `connect` always fails: the receiver's bind raises whether or not the
      port is free. As intended, the outcome is whether the ports are free. */
  lemma ReceiversAsWrittenNeverBind(cfg: DevConfig, apiReply: Reply, videoOk: bool, topFree: bool, frontFree: bool)
    requires !cfg.testSegWithVid && (cfg.connectToTopCam || cfg.connectToFrontCam)
    ensures !ConnectVerdict(cfg, apiReply, videoOk,
      Binds(ReceiverBindingAsWritten(TOP_CAM_PORT, ANY_INTERFACE), topFree),
      Binds(ReceiverBindingAsWritten(FRONT_CAM_PORT, ANY_INTERFACE), frontFree))
    ensures ConnectVerdict(cfg, apiReply, videoOk,
      Binds(ReceiverBinding(TOP_CAM_PORT, ANY_INTERFACE), topFree),
      Binds(ReceiverBinding(FRONT_CAM_PORT, ANY_INTERFACE), frontFree)) ==
      ((ApiReachable(apiReply) || !cfg.connectToMovApi) &&
       (topFree || !cfg.connectToTopCam) && (frontFree || !cfg.connectToFrontCam))
  {
  }

  /** The controller-side robot object. */
  class SS8 {
    const config: DevConfig
    const topCam: UdpReceiver
    const frontCam: UdpReceiver
    /** Unset until `connect`. */
    var apiUrl: Option<string>
    var topCamUrl: Option<string>
    var frontCamUrl: Option<string>
    var sent: seq<Request>
    var lost: nat
    var clock: real

    function Observed(): Effects
      reads this
    {
      Effects(sent, lost, clock)
    }

    /** Two idle receivers; nothing sent yet. */
    constructor (config: DevConfig)
      ensures this.config == config && apiUrl.None? && topCamUrl.None? && frontCamUrl.None?
      ensures Observed() == Effects([], 0, 0.0)
      ensures fresh(topCam) && fresh(frontCam) && topCam != frontCam
      ensures topCam.State() == RxState([], None, false) && frontCam.State() == RxState([], None, false)
    {
      this.config := config;
      topCam := new UdpReceiver();
      frontCam := new UdpReceiver();
      apiUrl := None;
      topCamUrl := None;
      frontCamUrl := None;
      sent := [];
      lost := 0;
      clock := 0.0;
    }

    /** `get_default_urls`. */
    function DefaultUrls(): (urls: (string, string, string))
      ensures urls.0 != urls.1 && urls.1 != urls.2 && urls.0 != urls.2
    {
      assert DEFAULT_API_URL[22] != DEFAULT_TOP_CAM_URL[22];
      assert DEFAULT_TOP_CAM_URL[22] != DEFAULT_FRONT_CAM_URL[22];
      assert DEFAULT_API_URL[22] != DEFAULT_FRONT_CAM_URL[22];
      (DEFAULT_API_URL, DEFAULT_TOP_CAM_URL, DEFAULT_FRONT_CAM_URL)
    }

    /** `connect`: stores the three URLs, checks the API when enabled (a GET
        of `/status`), then starts the camera receivers that are enabled,
        stopping at the first failure. `videoOk` stands for the test video
        being found; `topFree` and `frontFree` for the UDP ports being free. */
    method Connect(api: string, top: string, front: string, apiReply: Reply, videoOk: bool, topFree: bool, frontFree: bool)
      returns (ok: bool)
      requires topCam != frontCam
      modifies this`apiUrl, this`topCamUrl, this`frontCamUrl, this`sent, topCam`running, frontCam`running
      ensures apiUrl == Some(api) && topCamUrl == Some(top) && frontCamUrl == Some(front)
      ensures sent == old(sent) + if config.connectToMovApi then [Get(api + "/status")] else []
      ensures ok == ConnectVerdict(config, apiReply, videoOk,
        Binds(ReceiverBinding(TOP_CAM_PORT, ANY_INTERFACE), topFree),
        Binds(ReceiverBinding(FRONT_CAM_PORT, ANY_INTERFACE), frontFree))
      ensures topCam.running == (old(topCam.running) || (topFree && config.connectToTopCam && !config.testSegWithVid &&
        (ApiReachable(apiReply) || !config.connectToMovApi)))
      ensures frontCam.running == (old(frontCam.running) || (frontFree && config.connectToFrontCam && !config.testSegWithVid &&
        (ApiReachable(apiReply) || !config.connectToMovApi) && (topFree || !config.connectToTopCam)))
    {
      apiUrl := Some(api);
      topCamUrl := Some(top);
      frontCamUrl := Some(front);
      if config.connectToMovApi {
        sent := sent + [Get(api + "/status")];
        if !ApiReachable(apiReply) {
          return false;
        }
      }
      if config.testSegWithVid {
        return videoOk;
      }
      if config.connectToTopCam {
        var bound := topCam.StartListening(Binds(ReceiverBinding(TOP_CAM_PORT, ANY_INTERFACE), topFree));
        if !bound {
          return false;
        }
      }
      if config.connectToFrontCam {
        var bound := frontCam.StartListening(Binds(ReceiverBinding(FRONT_CAM_PORT, ANY_INTERFACE), frontFree));
        if !bound {
          return false;
        }
      }
      return true;
    }

    /** The body shared by every order: the guarded request, then the wait. */
    method Perform(c: Command, wait: bool, reply: Reply)
      modifies this`sent, this`lost, this`clock
      ensures Observed() == Issue(config, apiUrl, c, wait, reply, old(Observed()))
    {
      if !config.simulationMode {
        if apiUrl.None? {
          lost := lost + 1;
        } else {
          sent := sent + [RequestFor(apiUrl.value, c)];
          var h := SendReq(reply);
          if h.connectionLost {
            lost := lost + 1;
          }
        }
      }
      if wait && Timed(c) {
        var seconds := ActuationMs(c) * 0.001;
        if 0.0 < seconds {
          clock := clock + seconds;
        }
      }
    }

    /** `move_forward(dist, wait_for_completion)`. */
    method MoveForwardCm(dist: real, wait: bool, reply: Reply)
      modifies this`sent, this`lost, this`clock
      ensures Observed() == Issue(config, apiUrl, MoveForward(dist), wait, reply, old(Observed()))
    {
      Perform(MoveForward(dist), wait, reply);
    }

    /** `move_backward(dist, wait_for_completion)`. */
    method MoveBackwardCm(dist: real, wait: bool, reply: Reply)
      modifies this`sent, this`lost, this`clock
      ensures Observed() == Issue(config, apiUrl, MoveBackward(dist), wait, reply, old(Observed()))
    {
      Perform(MoveBackward(dist), wait, reply);
    }

    /** `rotate_left(angle, wait_for_completion)`. */
    method RotateLeftRad(angle: real, wait: bool, reply: Reply)
      modifies this`sent, this`lost, this`clock
      ensures Observed() == Issue(config, apiUrl, RotateLeft(angle), wait, reply, old(Observed()))
    {
      Perform(RotateLeft(angle), wait, reply);
    }

    /** `rotate_right(angle, wait_for_completion)`. */
    method RotateRightRad(angle: real, wait: bool, reply: Reply)
      modifies this`sent, this`lost, this`clock
      ensures Observed() == Issue(config, apiUrl, RotateRight(angle), wait, reply, old(Observed()))
    {
      Perform(RotateRight(angle), wait, reply);
    }

    /** `stop_mov`. */
    method StopMovement(reply: Reply)
      modifies this`sent, this`lost, this`clock
      ensures Observed() == Issue(config, apiUrl, StopMov, false, reply, old(Observed()))
    {
      Perform(StopMov, false, reply);
    }

    /** `goto_arm(x, y)`. */
    method GotoArmAt(x: real, y: real, reply: Reply)
      modifies this`sent, this`lost, this`clock
      ensures Observed() == Issue(config, apiUrl, GotoArm(x, y), false, reply, old(Observed()))
    {
      Perform(GotoArm(x, y), false, reply);
    }

    /** `stop_arm`. */
    method StopArmMovement(reply: Reply)
      modifies this`sent, this`lost, this`clock
      ensures Observed() == Issue(config, apiUrl, StopArm, false, reply, old(Observed()))
    {
      Perform(StopArm, false, reply);
    }

    /** `goto_camera(alpha, beta)`. */
    method GotoCameraAt(alpha: real, beta: real, reply: Reply)
      modifies this`sent, this`lost, this`clock
      ensures Observed() == Issue(config, apiUrl, GotoCamera(alpha, beta), false, reply, old(Observed()))
    {
      Perform(GotoCamera(alpha, beta), false, reply);
    }

    /** `stop_cam`. */
    method StopCamera(reply: Reply)
      modifies this`sent, this`lost, this`clock
      ensures Observed() == Issue(config, apiUrl, StopCam, false, reply, old(Observed()))
    {
      Perform(StopCam, false, reply);
    }

    /** `capture_image(src)`: the test video's frame when segmenting from
        video, the top camera's frame for "arm", the front camera's for
        "front", and nothing for any other source. `videoFrame` is the frame
        the video loop last stored. */
    method CaptureImage(src: string, videoFrame: Option<Image>) returns (f: Option<Image>)
      ensures config.testSegWithVid ==> f == videoFrame
      ensures !config.testSegWithVid && src == "arm" ==> f == topCam.currentFrame
      ensures !config.testSegWithVid && src == "front" ==> f == frontCam.currentFrame
      ensures !config.testSegWithVid && src != "arm" && src != "front" ==> f.None?
    {
      if config.testSegWithVid {
        return videoFrame;
      } else if src == "arm" {
        f := topCam.GetCurrentFrame();
      } else if src == "front" {
        f := frontCam.GetCurrentFrame();
      } else {
        f := None;
      }
    }
  }
}
