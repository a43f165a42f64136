/**
 * The user document (server/db/user/model.js), reduced to the fields the
 * worker reads. Every field a document may lack is an `Option`.
 */
module UserData {
  import opened Wrappers
  import opened ImageModel

  datatype Facebook = Facebook(id: Option<string>, email: Option<string>)

  /** The local (email and password) login; `username` is the email address. */
  datatype Local = Local(username: Option<string>)

  datatype Location = Location(name: Option<string>, manual_entry: Option<string>)

  /** `creation` is the creation time in milliseconds since the epoch. */
  datatype User = User(
    id: string,
    user_type: string,
    name: Option<string>,
    first_name: Option<string>,
    last_name: Option<string>,
    alias_name: Option<string>,
    alias_slug: Option<string>,
    profile_name: Option<string>,
    birthdate: Option<string>,
    location: Option<Location>,
    mod_score: Option<int>,
    follower_count: Option<int>,
    local: Option<Local>,
    facebook: Option<Facebook>,
    primary_image: Option<Image>,
    creation: int)
}
