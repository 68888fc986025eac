/**
 * The form-template store behind the editor: saving a template (create or
 * update) and loading the part of it the editor needs. A template's
 * `configuration` is the JSON document the editor posted, stored as a whole;
 * loading returns only `name`, `description` and the document's `elements`
 * and `elementCounts`.
 */
module Templates {
  import opened Wrappers

  /** A JSON value as `json.loads` produces it (numbers are integers here). */
  datatype Json =
    | JNull
    | JBool(b: bool)
    | JNum(n: int)
    | JStr(s: string)
    | JArr(items: seq<Json>)
    | JObj(fields: map<string, Json>)

  /** Python's `data[key]` for a string key: the member of an object, or
      `None` where Python raises (`KeyError` for a missing key, `TypeError`
      for a value that is not an object). */
  function Member(data: Json, key: string): (v: Option<Json>)
    ensures v.Some? <==> data.JObj? && key in data.fields
    ensures v.Some? ==> v.value == data.fields[key]
  {
    if data.JObj? && key in data.fields then Some(data.fields[key]) else None
  }

  /** A stored `FormTemplate` row. `name` and `description` hold the JSON
      values they were given. */
  datatype FormTemplate = FormTemplate(name: Json, description: Json, configuration: Json,
                                       createdAt: int, updatedAt: int)

  /** Why a save failed; every failure is answered with status 400.
      `NotNullViolation` is the database refusing a JSON `null` in the
      NOT NULL `name` or `description` column. */
  datatype SaveFailure = MalformedBody | NoSuchTemplate | MissingField(key: string) | NotNullViolation

  /** `SaveTemplateView.post`'s answer: `{'status': 'success', 'template_id': id}`
      or `{'status': 'error', 'message': ...}`. */
  datatype SaveResponse = SaveSuccess(templateId: int) | SaveError(failure: SaveFailure)

  /** Why a load failed; every failure is answered with status 400, a missing
      template too, since the `Http404` is caught with the other exceptions. */
  datatype LoadFailure = NotFound | MissingConfigurationKey(key: string)

  /** `LoadTemplateView.get`'s answer. */
  datatype LoadResponse =
    | Loaded(name: Json, description: Json, elements: Json, elementCounts: Json)
    | LoadError(failure: LoadFailure)

  function SaveStatus(r: SaveResponse): (status: int)
    ensures status == 200 <==> r.SaveSuccess?
    ensures status != 200 ==> status == 400
  {
    if r.SaveSuccess? then 200 else 400
  }

  function LoadStatus(r: LoadResponse): (status: int)
    ensures status == 200 <==> r.Loaded?
    ensures status != 200 ==> status == 400
  {
    if r.Loaded? then 200 else 400
  }

  /** `if template_id:` — the URL's integer key; a missing key or `0` creates. */
  predicate IsUpdate(templateId: Option<int>) {
    templateId.Some? && templateId.value != 0
  }

  /** `LoadTemplateView.get`: the stored name and description and the
      configuration's `elements` and `elementCounts`; an error for a missing
      template or a configuration that lacks either key. */
  function Load(rows: map<int, FormTemplate>, templateId: int): (r: LoadResponse)
    ensures r.Loaded? <==> templateId in rows
                           && Member(rows[templateId].configuration, "elements").Some?
                           && Member(rows[templateId].configuration, "elementCounts").Some?
    ensures r.Loaded? ==> r == Loaded(rows[templateId].name, rows[templateId].description,
                                      rows[templateId].configuration.fields["elements"],
                                      rows[templateId].configuration.fields["elementCounts"])
    ensures templateId !in rows ==> r == LoadError(NotFound)
    ensures LoadStatus(r) == 400 <==> templateId !in rows
                                      || Member(rows[templateId].configuration, "elements").None?
                                      || Member(rows[templateId].configuration, "elementCounts").None?
  {
    if templateId !in rows then LoadError(NotFound)
    else
      var t := rows[templateId];
      match Member(t.configuration, "elements")
      case None => LoadError(MissingConfigurationKey("elements"))
      case Some(elements) =>
        match Member(t.configuration, "elementCounts")
        case None => LoadError(MissingConfigurationKey("elementCounts"))
        case Some(counts) => Loaded(t.name, t.description, elements, counts)
  }

  /** Loading never shows a configuration key other than `elements` and
      `elementCounts`: changing any other key leaves the answer as it was. */
  lemma LoadIgnoresOtherKeys(rows: map<int, FormTemplate>, templateId: int, key: string, v: Json)
    requires templateId in rows && rows[templateId].configuration.JObj?
    requires key != "elements" && key != "elementCounts"
    ensures var t := rows[templateId];
            var changed := t.(configuration := JObj(t.configuration.fields[key := v]));
            Load(rows[templateId := changed], templateId) == Load(rows, templateId)
  {
  }

  /** Loading one template does not depend on the other rows. */
  lemma LoadIgnoresOtherRows(rows: map<int, FormTemplate>, templateId: int, other: int, t: FormTemplate)
    requires other != templateId
    ensures Load(rows[other := t], templateId) == Load(rows, templateId)
  {
  }

  /** The template store. */
  class TemplateStore {
    var rows: map<int, FormTemplate>
    var nextId: int

    /** Keys are positive and below the next automatic key. */
    predicate Valid()
      reads this
    {
      1 <= nextId && forall k :: k in rows ==> 1 <= k < nextId
    }

    constructor ()
      ensures Valid() && rows == map[]
    {
      rows := map[];
      nextId := 1;
    }

    /** `SaveTemplateView.post(template_id)` with the request body already
        decoded (`None` when it is not JSON) and the clock reading `now`. An
        update overwrites `description`, `name` and the whole `configuration`;
        a create takes only `name` from the body, leaving `description`
        empty. A `null` name or description is refused by the database. Every
        answer with status 400 leaves the store unchanged. */
    method Save(templateId: Option<int>, body: Option<Json>, now: int) returns (response: SaveResponse)
      requires Valid()
      modifies this
      ensures Valid()
      ensures body.None? ==> response == SaveError(MalformedBody)
      ensures SaveStatus(response) == 400 ==> rows == old(rows)
      ensures IsUpdate(templateId) && body.Some? ==>
                response == (if templateId.value !in old(rows) then SaveError(NoSuchTemplate)
                             else if Member(body.value, "description").None? then SaveError(MissingField("description"))
                             else if Member(body.value, "name").None? then SaveError(MissingField("name"))
                             else if body.value.fields["name"].JNull? || body.value.fields["description"].JNull?
                             then SaveError(NotNullViolation)
                             else SaveSuccess(templateId.value))
      ensures IsUpdate(templateId) && response.SaveSuccess? ==>
                rows == old(rows)[templateId.value := old(rows)[templateId.value].(
                          name := body.value.fields["name"],
                          description := body.value.fields["description"],
                          configuration := body.value,
                          updatedAt := now)]
      ensures !IsUpdate(templateId) && body.Some? ==>
                (Member(body.value, "name").None? ==> response == SaveError(MissingField("name")))
                && (Member(body.value, "name").Some? && body.value.fields["name"].JNull? ==>
                      response == SaveError(NotNullViolation))
                && (Member(body.value, "name").Some? && !body.value.fields["name"].JNull? ==> response.SaveSuccess?)
      ensures !IsUpdate(templateId) && response.SaveSuccess? ==>
                response.templateId !in old(rows)
                && rows == old(rows)[response.templateId :=
                             FormTemplate(body.value.fields["name"], JStr(""), body.value, now, now)]
    {
      if body.None? {
        return SaveError(MalformedBody);
      }
      var data := body.value;
      if IsUpdate(templateId) {
        var id := templateId.value;
        if id !in rows {
          return SaveError(NoSuchTemplate);
        }
        var description := Member(data, "description");
        if description.None? {
          return SaveError(MissingField("description"));
        }
        var name := Member(data, "name");
        if name.None? {
          return SaveError(MissingField("name"));
        }
        if name.value.JNull? || description.value.JNull? {
          return SaveError(NotNullViolation);
        }
        var t := rows[id];
        rows := rows[id := t.(name := name.value, description := description.value,
                              configuration := data, updatedAt := now)];
        response := SaveSuccess(id);
      } else {
        var name := Member(data, "name");
        if name.None? {
          return SaveError(MissingField("name"));
        }
        if name.value.JNull? {
          return SaveError(NotNullViolation);
        }
        rows := rows[nextId := FormTemplate(name.value, JStr(""), data, now, now)];
        response := SaveSuccess(nextId);
        nextId := nextId + 1;
      }
    }

    /** Creating a template from a body with a non-null `name`, `elements`
        and `elementCounts`, then loading it, gives back that name, those two
        values and an empty description. */
    method CreateThenLoad(fields: map<string, Json>, now: int) returns (saved: SaveResponse, loaded: LoadResponse)
      requires Valid()
      requires "name" in fields && "elements" in fields && "elementCounts" in fields
      requires !fields["name"].JNull?
      modifies this
      ensures Valid()
      ensures saved.SaveSuccess?
      ensures loaded == Loaded(fields["name"], JStr(""), fields["elements"], fields["elementCounts"])
    {
      saved := Save(None, Some(JObj(fields)), now);
      loaded := Load(rows, saved.templateId);
    }

    /** Updating a template and then loading it gives back the posted name,
        description, `elements` and `elementCounts`. */
    method UpdateThenLoad(templateId: int, fields: map<string, Json>, now: int)
      returns (saved: SaveResponse, loaded: LoadResponse)
      requires Valid() && templateId in rows && templateId != 0
      requires "name" in fields && "description" in fields && "elements" in fields && "elementCounts" in fields
      requires !fields["name"].JNull? && !fields["description"].JNull?
      modifies this
      ensures Valid()
      ensures saved == SaveSuccess(templateId)
      ensures loaded == Loaded(fields["name"], fields["description"], fields["elements"], fields["elementCounts"])
    {
      saved := Save(Some(templateId), Some(JObj(fields)), now);
      loaded := Load(rows, templateId);
    }
  }
}
