/**
 * The in-browser demo API of the admin panel (`demoAdminApi` in
 * public/admin.js). It answers the panel's requests when no backend is
 * configured: content-management routes over three stored arrays of items
 * (testimonials, programs and services), all but the public services list
 * guarded by the role of the demo user that the Authorization header names.
 * Also here: the features list of the program form.
 *
 * The pure functions say what each request answers and what the arrays
 * become; the `AdminStore` class holds the arrays and serves the requests
 * step by step, each method proved to agree with its function.
 */
module DemoAdmin {
  import opened Text
  import opened Base
  import opened Search
  import Client

  // ----- items and users -----

  /** A JSON value of an item field, as the admin forms send them. */
  datatype Value = Str(s: string) | Num(n: int) | Flag(b: bool) | Strings(items: seq<string>)

  /** A stored item, and a request body: a JSON object. */
  type Item = map<string, Value>

  /** A stored demo user: its `email` and its `role`, each `None` when absent. */
  datatype Account = Account(email: Option<string>, role: Option<string>)

  /** `user.role || 'user'`. */
  function RoleOf(a: Account): (r: string)
    ensures r != []
  {
    if OrEmpty(a.role) == [] then "user" else OrEmpty(a.role)
  }

  function HasEmail(email: string): Account -> bool {
    (a: Account) => a.email == Some(email)
  }

  // ----- the demo user's role -----

  const DemoPrefix := "Bearer demo-"

  /** `auth.replace('Bearer demo-', '')` for a header that starts with the prefix: what follows it. */
  function TokenOf(auth: string): string
    requires StartsWith(auth, DemoPrefix)
  {
    auth[|DemoPrefix|..]
  }

  /** `decoded.split(':')[0]`: the email part of a decoded demo token. */
  function EmailOfDecoded(decoded: string): (e: string)
    ensures ':' !in e
  {
    Split(decoded, ':')[0]
  }

  /**
   * `getDemoUserRole`: `None` (null) unless the header carries a demo
   * token; otherwise the role of the first stored user with the token's
   * email, and "user" when there is none or when decoding throws. `atob`
   * stands for the browser's base-64 decoder, `None` when it throws.
   */
  function DemoUserRole(auth: string, users: seq<Account>, atob: string -> Option<string>): (r: Option<string>)
    ensures r.None? <==> !StartsWith(auth, DemoPrefix)
    ensures r.Some? ==> r.value != []
  {
    if !StartsWith(auth, DemoPrefix) then None
    else
      match atob(TokenOf(auth))
      case None => Some("user")
      case Some(decoded) =>
        var i := FirstIndex(users, HasEmail(EmailOfDecoded(decoded)));
        if i == -1 then Some("user") else Some(RoleOf(users[i]))
  }

  /**
   * The header grants the admin role exactly when it carries a demo token
   * that decodes, and the first stored user with the decoded email has the
   * role "admin".
   */
  lemma AdminRoleIff(auth: string, users: seq<Account>, atob: string -> Option<string>)
    ensures DemoUserRole(auth, users, atob) == Some("admin") <==>
      StartsWith(auth, DemoPrefix) && atob(TokenOf(auth)).Some? &&
      var email := EmailOfDecoded(atob(TokenOf(auth)).value);
      exists i :: 0 <= i < |users| && users[i].email == Some(email) && RoleOf(users[i]) == "admin" &&
        forall k :: 0 <= k < i ==> users[k].email != Some(email)
  {
    if StartsWith(auth, DemoPrefix) && atob(TokenOf(auth)).Some? {
      var email := EmailOfDecoded(atob(TokenOf(auth)).value);
      var p := HasEmail(email);
      FirstIndexIsFirst(users, p);
      var i := FirstIndex(users, p);
      if i != -1 {
        assert forall k :: 0 <= k < i ==> !p(users[k]);
      }
      if exists j :: 0 <= j < |users| && users[j].email == Some(email) && RoleOf(users[j]) == "admin" &&
                     forall k :: 0 <= k < j ==> users[k].email != Some(email) {
        var j :| 0 <= j < |users| && users[j].email == Some(email) && RoleOf(users[j]) == "admin" &&
                 forall k :: 0 <= k < j ==> users[k].email != Some(email);
        FirstIndexAt(users, p, j);
      }
    }
  }

  /**
   * A token the public client issues, `'demo-' + btoa(email + ':' + stamp)`,
   * names the user with that email: the header gets that user's role, or
   * "user" when no stored user has the email.
   */
  lemma DemoTokenRole(users: seq<Account>, email: string, stamp: string, encoded: string,
                      atob: string -> Option<string>)
    requires ':' !in email
    requires atob(encoded) == Some(email + ":" + stamp)
    ensures DemoUserRole(DemoPrefix + encoded, users, atob) ==
      var i := FirstIndex(users, HasEmail(email));
      Some(if i == -1 then "user" else RoleOf(users[i]))
  {
    var auth := DemoPrefix + encoded;
    assert StartsWith(auth, DemoPrefix) && TokenOf(auth) == encoded;
    SplitFirst(email, ':', stamp);
  }

  /** With no stored users no header grants the admin role. */
  lemma NoAdminWithoutUsers(auth: string, atob: string -> Option<string>)
    ensures DemoUserRole(auth, [], atob) != Some("admin")
  {
  }

  // ----- collection paths -----

  datatype Collection = Testimonials | Programs | Services

  function CollectionName(c: Collection): string {
    match c
    case Testimonials => "testimonials"
    case Programs => "programs"
    case Services => "services"
  }

  /** A character that `.` in a JavaScript regular expression does not match. */
  predicate IsLineTerminator(c: char) {
    c == '\n' || c == '\r' || c == '\U{2028}' || c == '\U{2029}'
  }

  /** What `(.+)` matches: at least one character, none a line terminator. */
  predicate IsItemId(id: string) {
    id != [] && forall k :: 0 <= k < |id| ==> !IsLineTerminator(id[k])
  }

  /** A match of `^\/api\/admin\/(testimonials|programs|services)(?:\/(.+))?$`. */
  datatype Target = Target(collection: Collection, id: Option<string>)

  const AdminPrefix := "/api/admin/"

  /** The path a target is matched from. */
  function TargetPath(t: Target): string {
    AdminPrefix + CollectionName(t.collection) + (if t.id.Some? then "/" + t.id.value else "")
  }

  /**
   * The alternative of `(testimonials|programs|services)` that starts
   * `rest`; the names begin with different letters, so at most one does.
   */
  function CollectionAt(rest: string): (c: Option<Collection>)
    ensures c.Some? ==> StartsWith(rest, CollectionName(c.value))
  {
    if StartsWith(rest, "testimonials") then Some(Testimonials)
    else if StartsWith(rest, "programs") then Some(Programs)
    else if StartsWith(rest, "services") then Some(Services)
    else None
  }

  /** `(?:\/(.+))?$` on what follows the name: no id, an id, or no match. */
  function IdOf(tail: string): Option<Option<string>> {
    if tail == [] then Some(None)
    else if tail[0] == '/' && IsItemId(tail[1..]) then Some(Some(tail[1..]))
    else None
  }

  function MatchAdminPath(path: string): Option<Target> {
    if !StartsWith(path, AdminPrefix) then None
    else
      var rest := path[|AdminPrefix|..];
      match CollectionAt(rest)
      case None => None
      case Some(c) =>
        match IdOf(rest[|CollectionName(c)|..])
        case None => None
        case Some(id) => Some(Target(c, id))
  }

  /** The pattern matches exactly the target paths whose id is one `(.+)` accepts. */
  lemma MatchAdminPathIff(path: string, t: Target)
    ensures MatchAdminPath(path) == Some(t) <==>
      path == TargetPath(t) && (t.id.Some? ==> IsItemId(t.id.value))
  {
    if path == TargetPath(t) && (t.id.Some? ==> IsItemId(t.id.value)) {
      TargetPathMatches(t);
    }
  }

  lemma TargetPathMatches(t: Target)
    requires t.id.Some? ==> IsItemId(t.id.value)
    ensures MatchAdminPath(TargetPath(t)) == Some(t)
  {
    var name := CollectionName(t.collection);
    var tail := if t.id.Some? then "/" + t.id.value else "";
    var rest := name + tail;
    assert TargetPath(t) == AdminPrefix + rest;
    PrefixThenRest(AdminPrefix, rest);
    CollectionAtName(t.collection, tail);
    PrefixThenRest(name, tail);
    if t.id.Some? {
      assert tail[1..] == t.id.value;
    }
  }

  lemma PrefixThenRest(p: string, rest: string)
    ensures StartsWith(p + rest, p) && (p + rest)[|p|..] == rest
  {
    assert (p + rest)[..|p|] == p;
  }

  /** Each name is found at the start of a path whatever follows it. */
  lemma CollectionAtName(c: Collection, tail: string)
    ensures CollectionAt(CollectionName(c) + tail) == Some(c)
  {
    var rest := CollectionName(c) + tail;
    PrefixThenRest(CollectionName(c), tail);
    match c
    case Testimonials =>
    case Programs =>
      assert rest[0] == 'p';
    case Services =>
      assert rest[0] == 's';
  }

  // ----- the stored arrays and what the routes do to them -----

  /** The three stored arrays. */
  datatype Cms = Cms(testimonials: seq<Item>, programs: seq<Item>, services: seq<Item>)

  function ItemsOf(s: Cms, c: Collection): seq<Item> {
    match c
    case Testimonials => s.testimonials
    case Programs => s.programs
    case Services => s.services
  }

  /** `setStorageArray(keyMap[c], items)`: the other two arrays stay as they are. */
  function WithItems(s: Cms, c: Collection, items: seq<Item>): (r: Cms)
    ensures ItemsOf(r, c) == items
    ensures forall d :: d != c ==> ItemsOf(r, d) == ItemsOf(s, d)
  {
    match c
    case Testimonials => s.(testimonials := items)
    case Programs => s.(programs := items)
    case Services => s.(services := items)
  }

  /** `i._id === id`. */
  function HasItemId(id: string): Item -> bool {
    (i: Item) => "_id" in i && i["_id"] == Str(id)
  }

  /**
   * `{ _id: 'd' + Date.now(), ...body, order: items.length + 1 }`: every
   * field of the body, a stamped `_id` unless the body has one, and the
   * position the item takes as its `order`.
   */
  function NewItem(items: seq<Item>, body: Item, now: nat): (item: Item)
    ensures item.Keys == body.Keys + {"_id", "order"}
    ensures item["order"] == Num(|items| + 1)
    ensures item["_id"] == if "_id" in body then body["_id"] else Str("d" + Decimal(now))
    ensures forall key :: key in body && key != "order" ==> item[key] == body[key]
  {
    (map["_id" := Str("d" + Decimal(now))] + body)["order" := Num(|items| + 1)]
  }

  /** `{ _id: 'ds' + Date.now(), ...body }`: the body with a stamped `_id` unless it has one. */
  function NewService(body: Item, now: nat): (item: Item)
    ensures item.Keys == body.Keys + {"_id"}
    ensures item["_id"] == if "_id" in body then body["_id"] else Str("ds" + Decimal(now))
    ensures forall key :: key in body ==> item[key] == body[key]
  {
    map["_id" := Str("ds" + Decimal(now))] + body
  }

  /**
   * `{ ...item, ...body, _id: id }`: the body's fields over the item's,
   * with the `_id` forced back to the path's id.
   */
  function Merged(item: Item, body: Item, id: string): (m: Item)
    ensures m.Keys == item.Keys + body.Keys + {"_id"}
    ensures m["_id"] == Str(id)
    ensures forall key :: key in body && key != "_id" ==> m[key] == body[key]
    ensures forall key :: key in item && key !in body && key != "_id" ==> m[key] == item[key]
  {
    (item + body)["_id" := Str(id)]
  }

  /**
   * PUT on an id: the array with the first item of that id merged with the
   * body, and the merged item; `None` (404) when no item has the id.
   */
  function Replace(items: seq<Item>, id: string, body: Item): Option<(seq<Item>, Item)> {
    var i := FirstIndex(items, HasItemId(id));
    if i == -1 then None
    else
      var m := Merged(items[i], body, id);
      Some((items[i := m], m))
  }

  /** DELETE on an id: `items.splice(idx, 1)` at the first item of that id; `None` (404) when there is none. */
  function Remove(items: seq<Item>, id: string): Option<seq<Item>> {
    var i := FirstIndex(items, HasItemId(id));
    if i == -1 then None else Some(items[..i] + items[i + 1..])
  }

  /**
   * PUT answers 404 exactly when no item has the id; otherwise only the
   * first item with the id changes, into the merged item, which keeps the id.
   */
  lemma ReplaceChangesFirstMatch(items: seq<Item>, id: string, body: Item)
    ensures Replace(items, id, body).None? <==> forall k :: 0 <= k < |items| ==> !HasItemId(id)(items[k])
    ensures Replace(items, id, body).Some? ==>
      var (next, m) := Replace(items, id, body).value;
      var i := FirstIndex(items, HasItemId(id));
      0 <= i < |items| && HasItemId(id)(items[i]) &&
      (forall k :: 0 <= k < i ==> !HasItemId(id)(items[k])) &&
      |next| == |items| && next[i] == m && m == Merged(items[i], body, id) && HasItemId(id)(m) &&
      forall k :: 0 <= k < |items| && k != i ==> next[k] == items[k]
  {
    FirstIndexIsFirst(items, HasItemId(id));
  }

  /**
   * DELETE answers 404 exactly when no item has the id; otherwise it drops
   * the first item with the id and keeps the others in their order.
   */
  lemma RemoveDropsFirstMatch(items: seq<Item>, id: string)
    ensures Remove(items, id).None? <==> forall k :: 0 <= k < |items| ==> !HasItemId(id)(items[k])
    ensures Remove(items, id).Some? ==>
      var next := Remove(items, id).value;
      var i := FirstIndex(items, HasItemId(id));
      0 <= i < |items| && HasItemId(id)(items[i]) &&
      (forall k :: 0 <= k < i ==> !HasItemId(id)(items[k])) &&
      |next| == |items| - 1 && next[..i] == items[..i] && next[i..] == items[i + 1..] &&
      multiset(next) + multiset{items[i]} == multiset(items)
  {
    FirstIndexIsFirst(items, HasItemId(id));
    var i := FirstIndex(items, HasItemId(id));
    if i != -1 {
      SpliceOne(items, i);
    }
  }

  /** `splice(i, 1)` keeps everything before and after position `i`, and only loses the element there. */
  lemma SpliceOne<T>(xs: seq<T>, i: int)
    requires 0 <= i < |xs|
    ensures var next := xs[..i] + xs[i + 1..];
      |next| == |xs| - 1 && next[..i] == xs[..i] && next[i..] == xs[i + 1..] &&
      multiset(next) + multiset{xs[i]} == multiset(xs)
  {
    var next := xs[..i] + xs[i + 1..];
    assert next[..i] == xs[..i] && next[i..] == xs[i + 1..];
    assert xs == xs[..i] + [xs[i]] + xs[i + 1..];
  }

  // ----- replies -----

  /** The texts the routes answer with. */
  datatype Wording = AdminRequired | NotFound | Deleted | ServiceUpdated | ServiceDeleted | ServiceCreated

  function Says(w: Wording): string {
    match w
    case AdminRequired => "Admin access required"
    case NotFound => "Not found"
    case Deleted => "Deleted"
    case ServiceUpdated => "Service updated"
    case ServiceDeleted => "Service deleted"
    case ServiceCreated => "Service created"
  }

  /** The JSON body of a reply. */
  datatype Reply =
    | Error(error: Wording)
    | AdminConfirmed
    | Items(items: seq<Item>)
    | ItemReply(item: Item)
    | Message(message: Wording)
    | ServiceReply(message: Wording, service: Item)

  datatype Response = Response(status: nat, reply: Reply)

  const Forbidden := Response(403, Error(AdminRequired))
  const Missing := Response(404, Error(NotFound))

  // ----- routing -----

  const CheckPath := "/api/admin/check"
  const ServicesPath := "/api/services"
  const ServicesPrefix := "/api/services/"

  /** A request as the handler reads it: the path, the method, the parsed body and the Authorization header. */
  datatype Request = Request(path: string, verb: Option<string>, body: Item, auth: string)

  /** What the handler decides a request is, from its path and upper-case method. */
  datatype Call =
    | CheckCall
    | CollectionCall(target: Target, verb: string)
    | ListServicesCall
    | UpdateServiceCall(id: string)
    | DeleteServiceCall(id: string)
    | CreateServiceCall
    | UnknownCall

  /**
   * The branches in the order the handler tries them. A collection path
   * with a method its branch does not serve falls through the service
   * branches, which no collection path reaches (`CollectionPathsAreNotServicePaths`),
   * to the final 404.
   */
  function CallOf(path: string, verb: string): Call {
    if path == CheckPath then CheckCall
    else if MatchAdminPath(path).Some? then CollectionCall(MatchAdminPath(path).value, verb)
    else if path == ServicesPath && verb == "GET" then ListServicesCall
    else if StartsWith(path, ServicesPrefix) && verb == "PUT" then UpdateServiceCall(path[|ServicesPrefix|..])
    else if StartsWith(path, ServicesPrefix) && verb == "DELETE" then DeleteServiceCall(path[|ServicesPrefix|..])
    else if path == ServicesPath && verb == "POST" then CreateServiceCall
    else UnknownCall
  }

  /** No collection path is the services path or lies under it. */
  lemma CollectionPathsAreNotServicePaths(path: string)
    requires MatchAdminPath(path).Some?
    ensures path != ServicesPath && !StartsWith(path, ServicesPrefix) && path != CheckPath
  {
    assert path[..|AdminPrefix|] == AdminPrefix;
    assert path[5] == 'a';
  }

  /** A collection route once the role is admin. */
  function CollectionStep(s: Cms, t: Target, verb: string, body: Item, now: nat): (Cms, Response) {
    var items := ItemsOf(s, t.collection);
    if t.id.None? then
      if verb == "GET" then (s, Response(200, Items(items)))
      else if verb == "POST" then
        var item := NewItem(items, body, now);
        (WithItems(s, t.collection, items + [item]), Response(201, ItemReply(item)))
      else (s, Missing)
    else if verb == "PUT" then
      match Replace(items, t.id.value, body)
      case None => (s, Missing)
      case Some((next, m)) => (WithItems(s, t.collection, next), Response(200, ItemReply(m)))
    else if verb == "DELETE" then
      match Remove(items, t.id.value)
      case None => (s, Missing)
      case Some(next) => (WithItems(s, t.collection, next), Response(200, Message(Deleted)))
    else (s, Missing)
  }

  /** One decided request: the arrays afterwards and the response; `role` is `getDemoUserRole()`. */
  function Apply(s: Cms, call: Call, body: Item, role: Option<string>, now: nat): (Cms, Response) {
    var admin := role == Some("admin");
    match call
    case CheckCall => (s, if admin then Response(200, AdminConfirmed) else Forbidden)
    case CollectionCall(t, verb) => if !admin then (s, Forbidden) else CollectionStep(s, t, verb, body, now)
    case ListServicesCall => (s, Response(200, Items(s.services)))
    case UpdateServiceCall(id) =>
      if !admin then (s, Forbidden)
      else (
        match Replace(s.services, id, body)
        case None => (s, Missing)
        case Some((next, m)) => (s.(services := next), Response(200, ServiceReply(ServiceUpdated, m))))
    case DeleteServiceCall(id) =>
      if !admin then (s, Forbidden)
      else (
        match Remove(s.services, id)
        case None => (s, Missing)
        case Some(next) => (s.(services := next), Response(200, Message(ServiceDeleted))))
    case CreateServiceCall =>
      if !admin then (s, Forbidden)
      else
        var item := NewService(body, now);
        (s.(services := s.services + [item]), Response(201, ServiceReply(ServiceCreated, item)))
    case UnknownCall => (s, Missing)
  }

  /** `demoAdminApi(path, options)`: `users` is the stored user array, `now` is `Date.now()`. */
  function Step(s: Cms, users: seq<Account>, req: Request, now: nat, atob: string -> Option<string>): (Cms, Response) {
    Apply(s, CallOf(req.path, Client.MethodOf(req.verb)), req.body, DemoUserRole(req.auth, users, atob), now)
  }

  // ----- what the routes promise -----

  /** The collection a call may write: the addressed one, or the services. */
  function Addressed(call: Call): Collection {
    if call.CollectionCall? then call.target.collection else Services
  }

  /** A request changes at most the array it addresses. */
  lemma OnlyAddressedChanges(s: Cms, call: Call, body: Item, role: Option<string>, now: nat)
    ensures forall c :: c != Addressed(call) ==> ItemsOf(Apply(s, call, body, role, now).0, c) == ItemsOf(s, c)
  {
  }

  /**
   * Unless the role is admin, no call writes, and every call but the
   * public services list and the unknown route answers 403.
   */
  lemma NonAdminWritesNothing(s: Cms, call: Call, body: Item, role: Option<string>, now: nat)
    requires role != Some("admin")
    ensures Apply(s, call, body, role, now).0 == s
    ensures !call.ListServicesCall? && !call.UnknownCall? ==> Apply(s, call, body, role, now).1 == Forbidden
  {
  }

  /** A request answered with neither 200 nor 201 writes nothing. */
  lemma FailedCallWritesNothing(s: Cms, call: Call, body: Item, role: Option<string>, now: nat)
    ensures Apply(s, call, body, role, now).1.status != 200 && Apply(s, call, body, role, now).1.status != 201 ==>
      Apply(s, call, body, role, now).0 == s
  {
  }

  /**
   * POST on a collection appends exactly one item, at the end, whose
   * `order` is the new length; the items before it are unchanged.
   */
  lemma PostAppendsOne(s: Cms, c: Collection, body: Item, now: nat)
    ensures var (next, r) := Apply(s, CollectionCall(Target(c, None), "POST"), body, Some("admin"), now);
      r.status == 201 && r.reply.ItemReply? &&
      ItemsOf(next, c) == ItemsOf(s, c) + [r.reply.item] &&
      r.reply.item["order"] == Num(|ItemsOf(next, c)|)
  {
  }

  /** `GET /api/services` needs no role and answers the stored services unchanged. */
  lemma ServicesListIsPublic(s: Cms, users: seq<Account>, req: Request, now: nat, atob: string -> Option<string>)
    requires req.path == ServicesPath && Client.MethodOf(req.verb) == "GET"
    ensures Step(s, users, req, now, atob) == (s, Response(200, Items(s.services)))
  {
    assert req.path[5] == 's';
    assert !StartsWith(req.path, AdminPrefix);
  }

  /** Any path outside the admin and services routes answers 404 and writes nothing. */
  lemma UnknownPathNotFound(s: Cms, users: seq<Account>, req: Request, now: nat, atob: string -> Option<string>)
    requires req.path != CheckPath && MatchAdminPath(req.path).None?
    requires req.path != ServicesPath && !StartsWith(req.path, ServicesPrefix)
    ensures Step(s, users, req, now, atob) == (s, Missing)
  {
  }

  /**
   * With the stored user array empty, as long as nothing has written it,
   * no request changes the content: every write answers 403.
   */
  lemma NoWritesWithoutUsers(s: Cms, req: Request, now: nat, atob: string -> Option<string>)
    ensures Step(s, [], req, now, atob).0 == s
  {
    NoAdminWithoutUsers(req.auth, atob);
    NonAdminWritesNothing(s, CallOf(req.path, Client.MethodOf(req.verb)), req.body, DemoUserRole(req.auth, [], atob), now);
  }

  // ----- the program form's features list -----

  /** `value.split('\n').map(s => s.trim()).filter(Boolean)`: one feature per non-blank line. */
  function ParseFeatures(text: string): (features: seq<string>)
    ensures forall k :: 0 <= k < |features| ==> features[k] != [] && IsTrimmed(features[k]) && '\n' !in features[k]
  {
    Entries(text, '\n')
  }

  /** `(item.features || []).join('\n')`: the text the form shows. */
  function ShowFeatures(features: Option<seq<string>>): string {
    if features.Some? then Join(features.value, '\n') else ""
  }

  /** Features read line by line: those of the first lines, then those of the rest, in order. */
  lemma FeaturesLineByLine(first: string, rest: string)
    ensures ParseFeatures(first + "\n" + rest) == ParseFeatures(first) + ParseFeatures(rest)
  {
    EntriesAppend(first, '\n', rest);
  }

  /** Saving the form unchanged gives back the item's features, when each is non-empty, trimmed and one line. */
  lemma FeaturesRoundTrip(features: seq<string>)
    requires forall k :: 0 <= k < |features| ==> features[k] != [] && IsTrimmed(features[k]) && '\n' !in features[k]
    ensures ParseFeatures(ShowFeatures(Some(features))) == features
  {
    if features == [] {
      EntriesOfBlank([], '\n');
    } else {
      EntriesOfJoin(features, '\n');
    }
  }

  /** Saving the form twice in a row stores the same features as saving it once. */
  lemma FeaturesStable(text: string)
    ensures ParseFeatures(ShowFeatures(Some(ParseFeatures(text)))) == ParseFeatures(text)
  {
    FeaturesRoundTrip(ParseFeatures(text));
  }

  // ----- the stored arrays -----

  /** The three stored arrays, which the routes replace one at a time. */
  class AdminStore {
    var testimonials: seq<Item>
    var programs: seq<Item>
    var services: seq<Item>

    function State(): Cms
      reads this
    {
      Cms(testimonials, programs, services)
    }

    constructor (s: Cms)
      ensures State() == s
    {
      testimonials := s.testimonials;
      programs := s.programs;
      services := s.services;
    }

    /** `setStorageArray(keyMap[c], items)`. */
    method Store(c: Collection, items: seq<Item>)
      modifies this
      ensures State() == WithItems(old(State()), c, items)
    {
      match c
      case Testimonials => testimonials := items;
      case Programs => programs := items;
      case Services => services := items;
    }

    /** `items.push(item)` on one array. */
    method Push(c: Collection, item: Item)
      modifies this
      ensures State() == WithItems(old(State()), c, ItemsOf(old(State()), c) + [item])
    {
      var items := ItemsOf(State(), c);
      Store(c, items + [item]);
    }

    /** `items[idx] = { ...items[idx], ...body, _id: id }` at the first item with the id. */
    method Put(c: Collection, id: string, body: Item) returns (m: Option<Item>)
      modifies this
      ensures var r := Replace(ItemsOf(old(State()), c), id, body);
        if r.None? then m.None? && State() == old(State())
        else m == Some(r.value.1) && State() == WithItems(old(State()), c, r.value.0)
    {
      var items := ItemsOf(State(), c);
      var idx := FindFirst(items, HasItemId(id));
      if idx == -1 {
        m := None;
      } else {
        var merged := Merged(items[idx], body, id);
        items := items[idx := merged];
        Store(c, items);
        m := Some(merged);
      }
    }

    /** `items.splice(idx, 1)` at the first item with the id. */
    method Delete(c: Collection, id: string) returns (found: bool)
      modifies this
      ensures var r := Remove(ItemsOf(old(State()), c), id);
        if r.None? then !found && State() == old(State())
        else found && State() == WithItems(old(State()), c, r.value)
    {
      var items := ItemsOf(State(), c);
      var idx := FindFirst(items, HasItemId(id));
      if idx == -1 {
        found := false;
      } else {
        Store(c, items[..idx] + items[idx + 1..]);
        found := true;
      }
    }

    /** `demoAdminApi(path, options)`. */
    method Handle(req: Request, users: seq<Account>, now: nat, atob: string -> Option<string>) returns (r: Response)
      modifies this
      ensures (State(), r) == Step(old(State()), users, req, now, atob)
    {
      var role := DemoUserRole(req.auth, users, atob);
      r := Serve(CallOf(req.path, Client.MethodOf(req.verb)), req.body, role, now);
    }

    /** One decided request. */
    method Serve(call: Call, body: Item, role: Option<string>, now: nat) returns (r: Response)
      modifies this
      ensures (State(), r) == Apply(old(State()), call, body, role, now)
    {
      var admin := role == Some("admin");
      match call
      case CheckCall =>
        r := if admin then Response(200, AdminConfirmed) else Forbidden;
      case CollectionCall(t, verb) =>
        if !admin {
          r := Forbidden;
        } else {
          r := ServeCollection(t, verb, body, now);
        }
      case ListServicesCall =>
        r := Response(200, Items(services));
      case UpdateServiceCall(id) =>
        if !admin {
          r := Forbidden;
        } else {
          var m := Put(Services, id, body);
          r := if m.None? then Missing else Response(200, ServiceReply(ServiceUpdated, m.value));
        }
      case DeleteServiceCall(id) =>
        if !admin {
          r := Forbidden;
        } else {
          var found := Delete(Services, id);
          r := if found then Response(200, Message(ServiceDeleted)) else Missing;
        }
      case CreateServiceCall =>
        if !admin {
          r := Forbidden;
        } else {
          var item := NewService(body, now);
          Push(Services, item);
          r := Response(201, ServiceReply(ServiceCreated, item));
        }
      case UnknownCall =>
        r := Missing;
    }

    /** A collection route once the role is admin. */
    method ServeCollection(t: Target, verb: string, body: Item, now: nat) returns (r: Response)
      modifies this
      ensures (State(), r) == CollectionStep(old(State()), t, verb, body, now)
    {
      var c := t.collection;
      if t.id.None? {
        if verb == "GET" {
          r := Response(200, Items(ItemsOf(State(), c)));
        } else if verb == "POST" {
          var item := NewItem(ItemsOf(State(), c), body, now);
          Push(c, item);
          r := Response(201, ItemReply(item));
        } else {
          r := Missing;
        }
      } else if verb == "PUT" {
        var m := Put(c, t.id.value, body);
        r := if m.None? then Missing else Response(200, ItemReply(m.value));
      } else if verb == "DELETE" {
        var found := Delete(c, t.id.value);
        r := if found then Response(200, Message(Deleted)) else Missing;
      } else {
        r := Missing;
      }
    }
  }
}
