/** Shared vocabulary of the booking backend: identifiers, HTTP status tags,
    the authenticated principal, the owner-or-admin rule, JSON values and
    stored images. */
module Common {

  datatype Option<+T> = None | Some(value: T) {
    function GetOr(default: T): T {
      match this
      case Some(v) => v
      case None => default
    }
  }

  /** A document identifier (a Mongo ObjectId, compared by value). */
  type Id = nat

  /** The HTTP status a handler answers with; the message bodies are not modelled. */
  datatype Status = Ok | Created | BadRequest | Unauthorized | Forbidden | NotFound | ServerError {
    function Code(): nat {
      match this
      case Ok => 200
      case Created => 201
      case BadRequest => 400
      case Unauthorized => 401
      case Forbidden => 403
      case NotFound => 404
      case ServerError => 500
    }
  }

  /** The user that `protect` attached to the request: `req.user.id` and `req.user.role`. */
  datatype Principal = Principal(id: Id, role: string)

  const AdminRole := "admin"
  const UserRole := "user"

  /** The rule shared by review delete, booking cancel, blog update/delete and
      vehicle update/delete: the requester owns the record or is an admin. */
  predicate MayModify(owner: Id, who: Principal) {
    owner == who.id || who.role == AdminRole
  }

  lemma MayModifyCases(owner: Id, who: Principal)
    ensures who.role == AdminRole ==> MayModify(owner, who)
    ensures who.id == owner ==> MayModify(owner, who)
    ensures who.id != owner && who.role != AdminRole ==> !MayModify(owner, who)
  {
  }

  /** A JSON value, as produced by `JSON.parse` or sent in a JSON request body. */
  datatype Json =
    | JNull
    | JBool(b: bool)
    | JNumber(n: real)
    | JString(s: string)
    | JArray(items: seq<Json>)
    | JObject(fields: seq<(string, Json)>)

  /** JavaScript truthiness of a JSON value (NaN is not modelled). */
  predicate Truthy(j: Json) {
    match j
    case JNull => false
    case JBool(b) => b
    case JNumber(n) => n != 0.0
    case JString(s) => s != ""
    case JArray(_) => true
    case JObject(_) => true
  }

  /** An uploaded image stored inside a document: its bytes and MIME type. */
  datatype Image = Image(data: seq<bv8>, contentType: string)

  /** What the image-returning handlers list for each image: `{contentType, index}`. */
  datatype ImageRef = ImageRef(contentType: string, index: nat)

  /** `images.map((img, index) => ({contentType: img.contentType, index}))`. */
  function Listing(images: seq<Image>): (r: seq<ImageRef>)
    ensures |r| == |images|
    ensures forall i :: 0 <= i < |r| ==> r[i] == ImageRef(images[i].contentType, i)
  {
    if images == [] then []
    else Listing(images[..|images| - 1]) + [ImageRef(images[|images| - 1].contentType, |images| - 1)]
  }

  /** The image-index guard: `parseInt` gave a number (not NaN) in `[0, n)`. */
  predicate IndexIn(index: Option<int>, n: nat) {
    index.Some? && 0 <= index.value < n
  }

  /** `s.splice(i, 1)` for an index already checked to be in range. */
  function RemoveAt<T>(s: seq<T>, i: nat): (r: seq<T>)
    requires i < |s|
    ensures |r| == |s| - 1
    ensures forall j :: 0 <= j < i ==> r[j] == s[j]
    ensures forall j :: i <= j < |r| ==> r[j] == s[j + 1]
  {
    s[..i] + s[i + 1..]
  }

  /** Putting the removed element back where it was gives the original list,
      and the removal drops exactly one occurrence of it. */
  lemma RemoveAtRestores<T>(s: seq<T>, i: nat)
    requires i < |s|
    ensures RemoveAt(s, i)[..i] + [s[i]] + RemoveAt(s, i)[i..] == s
    ensures multiset(RemoveAt(s, i)) + multiset{s[i]} == multiset(s)
  {
    var r := RemoveAt(s, i);
    assert r[..i] == s[..i];
    assert r[i..] == s[i + 1..];
    assert s == s[..i] + [s[i]] + s[i + 1..];
  }
}
