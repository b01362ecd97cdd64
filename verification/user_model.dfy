/**
 * The User document of the record store (src/models/User.ts): a required and
 * unique email, a required name, an optional image and the list of the ids of
 * the user's files.
 */
module UserModel {

  import opened Wrappers
  import opened FileModel

  datatype User = User(
    id: ObjectId,
    email: string,
    name: string,
    image: Option<string>,
    files: seq<ObjectId>)

  /** The schema's required fields are non-empty. */
  predicate ValidUser(u: User) {
    u.email != "" && u.name != ""
  }

  /** The unique index on `email`. */
  predicate UniqueEmails(users: seq<User>) {
    forall i, j :: 0 <= i < j < |users| ==> users[i].email != users[j].email
  }

  /** `_id` is unique among users. */
  predicate UniqueUserIds(users: seq<User>) {
    forall i, j :: 0 <= i < j < |users| ==> users[i].id != users[j].id
  }

  /** `UserModel.findOne({ email })`: the first user with that email, if any. */
  function FindByEmail(users: seq<User>, email: string): (r: Option<User>)
    ensures r.Some? ==> r.value in users && r.value.email == email
    ensures r.None? ==> forall u :: u in users ==> u.email != email
  {
    if users == [] then None
    else if users[0].email == email then Some(users[0])
    else FindByEmail(users[1..], email)
  }

  /** Under the unique index every stored user is the one its email finds. */
  lemma {:induction false} FindByEmailUnique(users: seq<User>, i: nat)
    requires UniqueEmails(users) && i < |users|
    ensures FindByEmail(users, users[i].email) == Some(users[i])
  {
    if i > 0 {
      assert users[0].email != users[i].email;
      assert users[1..][i - 1] == users[i];
      FindByEmailUnique(users[1..], i - 1);
    }
  }

  /**
   * `findByIdAndUpdate(uid, { $push: { files: fid } })`: the user with id `uid`
   * gets `fid` at the end of its list; every other user and field is unchanged.
   */
  function PushFile(users: seq<User>, uid: ObjectId, fid: ObjectId): (r: seq<User>)
    ensures |r| == |users|
    ensures forall i :: 0 <= i < |users| && users[i].id == uid ==>
      r[i] == users[i].(files := users[i].files + [fid])
    ensures forall i :: 0 <= i < |users| && users[i].id != uid ==> r[i] == users[i]
  {
    if users == [] then []
    else
      [if users[0].id == uid then users[0].(files := users[0].files + [fid]) else users[0]] +
      PushFile(users[1..], uid, fid)
  }

}
