/** The customer page's client state: the join form, the log of join
    updates it lists, and "my token" tracked by name. The page is bound to
    one shop id (`SHOP_ID`). */
module CustomerPage {
  import opened Common
  import opened Store
  import opened Projection
  import opened Updates

  /** `name` is the form input, `updates` the listed join entries, `myName`
      the name this browser last joined under (`myNameRef`). */
  datatype Page = Page(nameInput: string, updates: seq<QueueEntry>, myToken: Option<int>,
                       myEta: Option<int>, myName: Option<string>)

  /** The body of the join request the page sends. */
  datatype JoinBody = JoinBody(name: Name, shopId: ShopId)

  /** Index of the first entry called `name`, the one the customer page's
      lookup by name picks. */
  function FindByName(q: seq<QueueEntry>, name: Name): (r: Option<nat>)
    ensures r.Some? ==> r.value < |q| && q[r.value].name == name
    ensures r.Some? ==> forall j :: 0 <= j < r.value ==> q[j].name != name
    ensures r.None? ==> forall j :: 0 <= j < |q| ==> q[j].name != name
  {
    if q == [] then None
    else if q[0].name == name then Some(0)
    else match FindByName(q[1..], name)
      case None => None
      case Some(k) => Some(k + 1)
  }

  /** The `queue:update` handler: a JOIN is logged and, when it is this
      browser's name, sets token and estimate; a SERVE_NEXT refreshes them
      from the first entry with this browser's name, if any; a REMOVE is
      ignored. */
  function OnUpdate(page: Page, shop: ShopId, u: QueueUpdate): (r: Page)
    ensures u.shopId != shop || u.RemoveUpdate? ==> r == page
    ensures r.nameInput == page.nameInput && r.myName == page.myName
    ensures u.shopId == shop && u.JoinUpdate? ==>
      && r.updates == page.updates + [u.entry]
      && (page.myName == Some(u.entry.name) ==> r.myToken == Some(u.entry.position) && r.myEta == Some(u.etaMinutes))
      && (page.myName != Some(u.entry.name) ==> r.myToken == page.myToken && r.myEta == page.myEta)
    ensures u.shopId == shop && u.ServeNextUpdate? ==>
      && r.updates == page.updates
      && (page.myName.Some? && (exists i :: 0 <= i < |u.queue| && u.queue[i].name == page.myName.value) ==>
            exists i :: && 0 <= i < |u.queue| && u.queue[i].name == page.myName.value
                        && (forall j :: 0 <= j < i ==> u.queue[j].name != page.myName.value)
                        && r.myToken == Some(u.queue[i].position) && r.myEta == u.queue[i].etaMinutes)
      && (page.myName.None? || (forall i :: 0 <= i < |u.queue| ==> u.queue[i].name != page.myName.value) ==>
            r == page)
  {
    if u.shopId != shop then page
    else match u
      case JoinUpdate(_, entry, eta) =>
        var logged := page.(updates := page.updates + [entry]);
        if page.myName == Some(entry.name) then logged.(myToken := Some(entry.position), myEta := Some(eta))
        else logged
      case ServeNextUpdate(_, _, queue) =>
        if page.myName.None? then page
        else (match FindByName(queue, page.myName.value)
          case Some(i) => page.(myToken := Some(queue[i].position), myEta := queue[i].etaMinutes)
          case None => page)
      case RemoveUpdate(_, _, _) => page
  }

  /** `joinQueue`: an empty input does nothing; otherwise the name is
      remembered, the join request is sent, and the input is cleared once
      the request resolves (a rejected request skips the clearing). */
  function JoinQueue(page: Page, shop: ShopId, requestResolves: bool): (r: (Page, Option<JoinBody>))
    ensures page.nameInput == "" ==> r == (page, None)
    ensures page.nameInput != "" ==>
      && r.1 == Some(JoinBody(page.nameInput, shop))
      && r.0.myName == Some(page.nameInput)
      && r.0.nameInput == (if requestResolves then "" else page.nameInput)
      && r.0.updates == page.updates && r.0.myToken == page.myToken && r.0.myEta == page.myEta
  {
    if page.nameInput == "" then (page, None)
    else
      var remembered := page.(myName := Some(page.nameInput));
      (if requestResolves then remembered.(nameInput := "") else remembered,
       Some(JoinBody(page.nameInput, shop)))
  }

  /** On a serve-next snapshot projected from `line`, a page tracking `me`
      takes the 1-based rank of the first entrant called `me`, with estimate
      rank-minus-one times four; with nobody of that name left, token and
      estimate stay as they were. */
  lemma SnapshotTokenIsRank(page: Page, shop: ShopId, served: Name, line: seq<Name>, me: Name)
    requires page.myName == Some(me)
    ensures var page' := OnUpdate(page, shop, ServeNextUpdate(shop, served, Projected(shop, line)));
      && (me in line ==>
            exists i :: && 0 <= i < |line| && line[i] == me && (forall j :: 0 <= j < i ==> line[j] != me)
                        && page'.myToken == Some(i + 1) && page'.myEta == Some(i * AvgServiceMinutes))
      && (me !in line ==> page' == page)
  {
    var q := Projected(shop, line);
    assert forall j :: 0 <= j < |q| ==> q[j].name == line[j] by {
      forall j | 0 <= j < |q| ensures q[j].name == line[j] { assert NamesOf(q)[j] == line[j]; }
    }
    match FindByName(q, me)
    case Some(i) =>
      assert line[i] == me;
    case None =>
      assert me !in line by {
        forall j | 0 <= j < |line| ensures line[j] != me { assert q[j].name == line[j]; }
      }
  }
}
