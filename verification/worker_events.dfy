/**
 * The service worker's event handlers, reduced to the decisions they make:
 * whether a message activates the waiting worker, which notification a push
 * shows, and what a click on a notification does.
 */
module WorkerEvents {
  import opened Wrappers
  import opened JsValues

  // ---------------------------------------------------------------- message

  /** The message type that tells a waiting worker to take over. */
  const SkipWaitingType: string := "SKIP_WAITING"

  /** `event.data && event.data.type === "SKIP_WAITING"`. */
  function ShouldSkipWaiting(data: Value): (r: bool)
    ensures r <==> data.Object? && "type" in data.fields && data.fields["type"] == Str("SKIP_WAITING")
  {
    Truthy(data) && Get(data, "type") == Str(SkipWaitingType)
  }

  // ------------------------------------------------------------------- push

  /** `event.data`: absent, present but not JSON (`json()` throws), or parsed. */
  datatype PushData = NoData | Malformed | Json(value: Value)

  const DefaultTitle: string := "알림"
  const DefaultBody: string := "새로운 알림이 도착했습니다."
  const DefaultUrl: string := "/"
  const Icon: string := "/icon.png"
  const Badge: string := "/badge.png"
  const Vibrate: seq<nat> := [200, 100, 200]

  /** What `showNotification` is called with. */
  datatype PushNotification = PushNotification(
    title: Value, body: Value, icon: string, badge: string, vibrate: seq<nat>, url: Value)

  /**
   * The truthy value a parsed payload supplies for `key`, if any: only a plain
   * object can supply one.
   */
  ghost function Supplied(data: PushData, key: string): Option<Value>
  {
    if data.Json? && data.value.Object? && key in data.value.fields && Truthy(data.value.fields[key])
    then Some(data.value.fields[key])
    else None
  }

  /** `event.data?.json() || {}`: never nullish, so its properties can be read. */
  function Payload(data: PushData): (v: Value)
    requires !data.Malformed?
    ensures !Nullish(v)
    ensures data.Json? && Truthy(data.value) ==> v == data.value
    ensures !(data.Json? && Truthy(data.value)) ==> v == Object(map[])
  {
    var parsed := if data.NoData? then Undefined else data.value;
    Or(parsed, Object(map[]))
  }

  /** The push handler: defaults for the missing or falsy fields, fixed icon, badge and vibration. */
  function OnPush(data: PushData): (r: Option<PushNotification>)
    ensures r.None? <==> data.Malformed?
    ensures r.Some? ==> r.value.icon == Icon && r.value.badge == Badge && r.value.vibrate == Vibrate
    ensures r.Some? ==> Truthy(r.value.title) && Truthy(r.value.body) && Truthy(r.value.url)
    ensures r.Some? ==> r.value.title == (if Supplied(data, "title").Some? then Supplied(data, "title").value else Str(DefaultTitle))
    ensures r.Some? ==> r.value.body == (if Supplied(data, "body").Some? then Supplied(data, "body").value else Str(DefaultBody))
    ensures r.Some? ==> r.value.url == (if Supplied(data, "url").Some? then Supplied(data, "url").value else Str(DefaultUrl))
  {
    if data.Malformed? then None
    else
      var payload := Payload(data);
      Some(PushNotification(
        title := Or(Get(payload, "title"), Str(DefaultTitle)),
        body := Or(Get(payload, "body"), Str(DefaultBody)),
        icon := Icon,
        badge := Badge,
        vibrate := Vibrate,
        url := Or(Get(payload, "url"), Str(DefaultUrl))))
  }

  /** A push without data shows the default notification. */
  lemma EmptyPushShowsDefaults()
    ensures OnPush(NoData) == Some(PushNotification(
              Str(DefaultTitle), Str(DefaultBody), Icon, Badge, Vibrate, Str(DefaultUrl)))
  {
  }

  // ------------------------------------------------------- notification click

  /** A window client from `clients.matchAll`; `canFocus` is `"focus" in client`. */
  datatype Client = Client(id: nat, canFocus: bool)

  /** What the click handler does. */
  datatype ClickAction = FocusClient(index: nat) | OpenWindow(url: Value) | NoAction

  /** Reading a property of `null` or `undefined`. */
  datatype TypeError = TypeError

  /** The position of the first client that can be focused, in list order. */
  function FirstFocusable(clients: seq<Client>): (r: Option<nat>)
    ensures r.Some? ==> r.value < |clients| && clients[r.value].canFocus
    ensures r.Some? ==> forall k :: 0 <= k < r.value ==> !clients[k].canFocus
    ensures r.None? ==> forall k :: 0 <= k < |clients| ==> !clients[k].canFocus
    decreases |clients|
  {
    if clients == [] then None
    else if clients[0].canFocus then Some(0)
    else
      match FirstFocusable(clients[1..])
      case None => None
      case Some(i) => Some(i + 1)
  }

  /**
   * The click handler as written: focus the first focusable client; otherwise,
   * when `openWindow` exists, open `event.notification.data.url`, which throws
   * when the notification carries no data.
   */
  function OnNotificationClickAsWritten(clients: seq<Client>, hasOpenWindow: bool, data: Value)
    : (r: Result<ClickAction, TypeError>)
    ensures r.Err? <==> FirstFocusable(clients).None? && hasOpenWindow && Nullish(data)
  {
    match FirstFocusable(clients)
    case Some(i) => Ok(FocusClient(i))
    case None =>
      if !hasOpenWindow then Ok(NoAction)
      else if Nullish(data) then Err(TypeError)
      else Ok(OpenWindow(Get(data, "url")))
  }

  /**
   * A notification shown by the page (which passes no `data`) is clicked while
   * no window is open: the handler as written throws instead of opening the app.
   */
  lemma ClickOnPageNotificationThrows()
    ensures OnNotificationClickAsWritten([], true, Null) == Err(TypeError)
  {
  }

  /**
   * The click handler with the app's root as the target when the notification
   * carries no data; otherwise as written.
   */
  function OnNotificationClick(clients: seq<Client>, hasOpenWindow: bool, data: Value): (a: ClickAction)
    ensures a.FocusClient? <==> exists k :: 0 <= k < |clients| && clients[k].canFocus
    ensures a.FocusClient? ==>
              a.index < |clients| && clients[a.index].canFocus &&
              forall k :: 0 <= k < a.index ==> !clients[k].canFocus
    ensures a.OpenWindow? <==> hasOpenWindow && forall k :: 0 <= k < |clients| ==> !clients[k].canFocus
    ensures a.OpenWindow? && !Nullish(data) ==> a.url == Get(data, "url")
    ensures a.OpenWindow? && Nullish(data) ==> a.url == Str(DefaultUrl)
  {
    match FirstFocusable(clients)
    case Some(i) => FocusClient(i)
    case None =>
      if !hasOpenWindow then NoAction
      else if Nullish(data) then OpenWindow(Str(DefaultUrl))
      else OpenWindow(Get(data, "url"))
  }

  /** The corrected handler never throws and does what the original does whenever that one succeeds. */
  lemma ClickCorrectionKeepsBehaviour(clients: seq<Client>, hasOpenWindow: bool, data: Value)
    ensures OnNotificationClickAsWritten(clients, hasOpenWindow, data).Ok? ==>
              OnNotificationClickAsWritten(clients, hasOpenWindow, data).value
              == OnNotificationClick(clients, hasOpenWindow, data)
    ensures OnNotificationClick([], true, Null) == OpenWindow(Str(DefaultUrl))
  {
  }

  /** Clicking a push notification with no focusable window opens the URL the push carried. */
  lemma ClickOpensPushedUrl(clients: seq<Client>, push: PushData)
    requires !push.Malformed?
    requires forall k :: 0 <= k < |clients| ==> !clients[k].canFocus
    ensures OnPush(push).Some?
    ensures OnNotificationClick(clients, true, Object(map["url" := OnPush(push).value.url]))
         == OpenWindow(OnPush(push).value.url)
  {
  }
}
