/** The user endpoints (routes/users.py) with logic of their own: the validation of
    `create_user` and the update dictionary of `update_user`. */
module UserRoutes {
  import opened Wrappers
  import opened Errors
  import opened Clock
  import opened Docs
  import opened Mongo
  import opened ImageService
  import opened UserRepository

  /** An uploaded file: its bytes and its (possibly missing) file name. */
  datatype Upload = Upload(content: seq<byte>, filename: Value)

  /** The response of a successful `create_user`. */
  function CreatedReply(id: string): Fields
  {
    map["status" := VStr("success"), "message" := VStr("User created successfully"), "id" := VStr(id)]
  }

  /** The 400 an unprocessable logo becomes. */
  function InvalidImage(e: Error): Error
  {
    Http(400, "Invalid image file: " + Message(e))
  }

  /** `create_user`: without a MONGO_URI it is a 500 before anything is read; a logo that
      cannot be processed is a 400; otherwise one user is stored with the processed logo. */
  method CreateUser(c: Collection, mongoUri: Option<string>, logo: Upload, phone: string, mail: string, website: string,
                    now: DateTime, a: Assets)
    returns (r: Result<Fields, Error>)
    requires c.Valid()
    modifies c
    ensures c.Valid()
    ensures !Given(mongoUri) ==> r == Failure(Http(500, "MONGO_URI not configured"))
    ensures Given(mongoUri) && ProcessLogo(logo.content, a).Failure? ==>
              r == Failure(InvalidImage(ProcessLogo(logo.content, a).error))
    ensures r.Failure? ==> c.docs == old(c.docs)
    ensures r.Success? <==> Given(mongoUri) && ProcessLogo(logo.content, a).Success?
    ensures r.Success? ==> exists o | o in c.docs && o !in old(c.docs) ::
              && c.docs == old(c.docs)[o := NewUser(phone, mail, website, ProcessLogo(logo.content, a).value, logo.filename, now)["_id" := VOid(o)]]
              && r.value == CreatedReply(HexId(o))
  {
    if !Given(mongoUri) {
      return Failure(Http(500, "MONGO_URI not configured"));
    }
    var processed := ProcessLogo(logo.content, a);
    if processed.Failure? {
      return Failure(InvalidImage(processed.error));
    }
    var id := UserRepository.Create(c, phone, mail, website, processed.value, logo.filename, now);
    var o := c.order[|c.order| - 1];
    assert o in c.docs;
    return Success(CreatedReply(id));
  }

  /** The dictionary `update_user` sends: the contact fields that were given and are not
      empty, and for a new logo both the processed logo and its file name. */
  function UpdateFields(phone: Option<string>, mail: Option<string>, website: Option<string>, logo: Option<Upload>, a: Assets)
    : (r: Result<Fields, Error>)
    ensures r.Failure? <==> logo.Some? && ProcessLogo(logo.value.content, a).Failure?
    ensures r.Failure? ==> r.error == InvalidImage(ProcessLogo(logo.value.content, a).error)
    ensures r.Success? ==>
              && ("phone" in r.value <==> Given(phone)) && (Given(phone) ==> r.value["phone"] == VStr(phone.value))
              && ("mail" in r.value <==> Given(mail)) && (Given(mail) ==> r.value["mail"] == VStr(mail.value))
              && ("website" in r.value <==> Given(website)) && (Given(website) ==> r.value["website"] == VStr(website.value))
              && ("logo" in r.value <==> logo.Some?) && ("logo_filename" in r.value <==> logo.Some?)
              && (logo.Some? ==> && r.value["logo"] == VBytes(ProcessLogo(logo.value.content, a).value)
                                 && r.value["logo_filename"] == logo.value.filename)
              && r.value.Keys <= {"phone", "mail", "website", "logo", "logo_filename"}
  {
    var contact := Put(Put(Put(map[], "phone", phone), "mail", mail), "website", website);
    if logo.None? then Success(contact)
    else
      var processed := ProcessLogo(logo.value.content, a);
      if processed.Failure? then Failure(InvalidImage(processed.error))
      else Success(contact["logo" := VBytes(processed.value)]["logo_filename" := logo.value.filename])
  }

  /** `d` with `key` set when the field was given. */
  function Put(d: Fields, key: string, field: Option<string>): Fields
  {
    if Given(field) then d[key := VStr(field.value)] else d
  }

  /** Empty strings and missing fields alike leave the update empty, which the repository
      then refuses. */
  lemma NothingGiven(phone: Option<string>, mail: Option<string>, website: Option<string>, a: Assets)
    requires !Given(phone) && !Given(mail) && !Given(website)
    ensures UpdateFields(phone, mail, website, None, a) == Success(map[])
  {
  }

  /** `update_user` building `update_data` step by step. */
  method UpdateData(phone: Option<string>, mail: Option<string>, website: Option<string>, logo: Option<Upload>, a: Assets)
    returns (r: Result<Fields, Error>)
    ensures r == UpdateFields(phone, mail, website, logo, a)
  {
    var data: Fields := map[];
    if Given(phone) {
      data := data["phone" := VStr(phone.value)];
    }
    if Given(mail) {
      data := data["mail" := VStr(mail.value)];
    }
    if Given(website) {
      data := data["website" := VStr(website.value)];
    }
    if logo.Some? {
      var processed := ProcessLogo(logo.value.content, a);
      if processed.Failure? {
        return Failure(InvalidImage(processed.error));
      }
      data := data["logo" := VBytes(processed.value)];
      data := data["logo_filename" := logo.value.filename];
    }
    return Success(data);
  }

  /** `update_user`: a bad logo is a 400 before the store is touched; otherwise the
      repository's `update` applies exactly the built dictionary. */
  method UpdateUser(c: Collection, id: ObjectId, phone: Option<string>, mail: Option<string>, website: Option<string>,
                    logo: Option<Upload>, a: Assets)
    returns (r: Result<Fields, Error>)
    requires c.Valid()
    modifies c
    ensures c.Valid() && c.order == old(c.order)
    ensures UpdateFields(phone, mail, website, logo, a).Failure? ==> r == Failure(UpdateFields(phone, mail, website, logo, a).error)
    ensures UpdateFields(phone, mail, website, logo, a) == Success(map[]) ==> r == Failure(Http(400, "No fields to update"))
    ensures r.Failure? ==> c.docs == old(c.docs)
    ensures r.Success? ==> && UpdateFields(phone, mail, website, logo, a).Success? && id in old(c.docs)
                           && c.docs == old(c.docs)[id := old(c.docs)[id] + UpdateFields(phone, mail, website, logo, a).value]
                           && r.value == StatusMessage("success", "User updated successfully")
  {
    var data := UpdateData(phone, mail, website, logo, a);
    if data.Failure? {
      return Failure(data.error);
    }
    r := UserRepository.Update(c, id, data.value);
  }
}
