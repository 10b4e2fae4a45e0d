/** The user documents of the backend (`src/convex/users.ts`): the read-only
    lookup of the signed-in user and the partial `update` mutation. The identity
    resolved from the caller's session (`getAuthUserId`) is a parameter. */
module Users {
  import opened JsText

  /** A store document id. `update` tests the id with JavaScript's falsy `!userId`;
      `getAuthUserId` yields either a document id, which is never empty, or null, so
      that test comes down to the id being absent (`None`). */
  type UserId = string

  /** A stored user record; every field is optional in the document schema. */
  datatype User = User(
    name: Option<string>,
    email: Option<string>,
    image: Option<string>,
    emailVerificationTime: Option<int>,
    otpEnabled: Option<bool>)

  /** Arguments of `update`: both optional. */
  datatype UpdateArgs = UpdateArgs(name: Option<string>, otpEnabled: Option<bool>)

  /** The `updates` object handed to the store's `patch`: the fields it names. */
  datatype Patch = Patch(name: Option<string>, otpEnabled: Option<bool>)

  datatype UpdateError = Unauthorized | DocumentNotFound

  datatype Outcome = Done | Failed(error: UpdateError)

  /** `getCurrentUser`: no identity gives null; otherwise the store's lookup, itself null
      when the record is missing. */
  function GetCurrentUser(docs: map<UserId, User>, authId: Option<UserId>): (r: Option<User>)
    ensures r.None? <==> authId.None? || authId.value !in docs
    ensures r.Some? ==> authId.Some? && authId.value in docs && r.value == docs[authId.value]
  {
    match authId
    case None => None
    case Some(id) => if id in docs then Some(docs[id]) else None
  }

  /** The `currentUser` query, which maps null to null and otherwise passes the user through. */
  function CurrentUser(docs: map<UserId, User>, authId: Option<UserId>): (r: Option<User>)
    ensures r == GetCurrentUser(docs, authId)
  {
    var user := GetCurrentUser(docs, authId);
    if user.None? then None else user
  }

  /** The store's `patch`: the named fields take the given values, the rest are kept. */
  function ApplyPatch(u: User, p: Patch): (v: User)
    ensures v.name == (if p.name.Some? then p.name else u.name)
    ensures v.otpEnabled == (if p.otpEnabled.Some? then p.otpEnabled else u.otpEnabled)
    ensures v.email == u.email && v.image == u.image
    ensures v.emailVerificationTime == u.emailVerificationTime
  {
    var withName := if p.name.Some? then u.(name := p.name) else u;
    if p.otpEnabled.Some? then withName.(otpEnabled := p.otpEnabled) else withName
  }

  /** An empty patch leaves the record as it is. */
  lemma EmptyPatchIsIdentity(u: User)
    ensures ApplyPatch(u, Patch(None, None)) == u
  {
  }

  /** Patching twice with the same fields is the same as patching once. */
  lemma PatchIdempotent(u: User, p: Patch)
    ensures ApplyPatch(ApplyPatch(u, p), p) == ApplyPatch(u, p)
  {
  }

  /** The user documents, patched in place by `update`. */
  class UserStore {
    var docs: map<UserId, User>

    constructor(docs: map<UserId, User>)
      ensures this.docs == docs
    {
      this.docs := docs;
    }

    /** `update`: refuses without an identity; otherwise builds the patch field by
        field, copying only the arguments that were supplied, and patches the caller's
        own record. The store's `patch` fails on a record that does not exist. */
    method Update(authId: Option<UserId>, args: UpdateArgs) returns (r: Outcome, sent: Patch)
      modifies this
      ensures authId.None? ==> r == Failed(Unauthorized) && docs == old(docs)
      ensures authId.Some? ==> sent == Patch(args.name, args.otpEnabled)
      ensures authId.Some? && authId.value !in old(docs) ==>
        r == Failed(DocumentNotFound) && docs == old(docs)
      ensures authId.Some? && authId.value in old(docs) ==>
        r == Done && docs == old(docs)[authId.value := ApplyPatch(old(docs)[authId.value], sent)]
      ensures docs.Keys == old(docs).Keys
      ensures forall id | id in old(docs) && Some(id) != authId :: docs[id] == old(docs)[id]
    {
      sent := Patch(None, None);
      if authId.None? {
        return Failed(Unauthorized), sent;
      }
      var userId := authId.value;
      if args.name.Some? {
        sent := sent.(name := args.name);
      }
      if args.otpEnabled.Some? {
        sent := sent.(otpEnabled := args.otpEnabled);
      }
      if userId !in docs {
        return Failed(DocumentNotFound), sent;
      }
      docs := docs[userId := ApplyPatch(docs[userId], sent)];
      r := Done;
    }
  }
}
