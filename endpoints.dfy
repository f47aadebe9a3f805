/** Endpoint descriptors: the typed `Endpoint` and `CustomField` records every
    later step reads, and their construction from one configuration entry
    (entities/endpoints.py). */
module Endpoints {
  import opened Outcomes
  import opened Config

  /** Where an endpoint's custom-field rows come from and where they are stored. */
  datatype CustomField = CustomField(
    fieldName: string,
    gcsFolder: string,
    fileNamePrefix: string,
    fields: set<string>)

  /** One API resource: its storage location, allow-list and shape flags. */
  datatype Endpoint = Endpoint(
    name: string,
    gcsFolder: string,
    fileNamePrefix: string,
    fields: set<string>,
    hasUniversityId: bool,
    dateFilter: bool,
    hasGradYear: bool,
    nestedFields: Option<seq<string>>,
    customField: Option<CustomField>)

  /** The keys `create_endpoint_object` reads with `config[...]`, in the order
      it reads them. */
  const RequiredKeys: seq<string> :=
    ["name", "gcs_folder", "file_name_prefix", "fields", "has_university_id", "date_filter", "has_grad_year"]

  /** The keyword parameters of `CustomField`. */
  const CustomFieldKeys: set<string> := {"field_name", "gcs_folder", "file_name_prefix", "fields"}

  /** The first key of `keys` that `config` lacks. */
  function FirstMissing(config: map<string, ConfigValue>, keys: seq<string>): (r: Option<string>)
    ensures r.None? <==> forall i :: 0 <= i < |keys| ==> keys[i] in config
    ensures r.Some? ==> exists i :: 0 <= i < |keys| && keys[i] == r.value && r.value !in config &&
                                    forall j :: 0 <= j < i ==> keys[j] in config
  {
    if keys == [] then None
    else if keys[0] !in config then Some(keys[0])
    else
      var r := FirstMissing(config, keys[1..]);
      assert r.Some? ==> exists i :: 0 <= i < |keys[1..]| && keys[1..][i] == r.value && r.value !in config &&
                                     forall j :: 0 <= j < i ==> keys[1..][j] in config;
      r
  }

  /** The string under `k`. */
  function StrAt(config: map<string, ConfigValue>, k: string): Result<string>
    requires k in config
  {
    if config[k].CStr? then Ok(config[k].s) else Err(ConfigTypeMismatch(k))
  }

  /** The boolean under `k`. */
  function BoolAt(config: map<string, ConfigValue>, k: string): Result<bool>
    requires k in config
  {
    if config[k].CBool? then Ok(config[k].b) else Err(ConfigTypeMismatch(k))
  }

  /** The set under `k`. */
  function SetAt(config: map<string, ConfigValue>, k: string): Result<set<string>>
    requires k in config
  {
    if config[k].CSet? then Ok(config[k].items) else Err(ConfigTypeMismatch(k))
  }

  /** The configuration dict a custom-field descriptor is built from. */
  function CustomFieldConfig(cf: CustomField): map<string, ConfigValue>
  {
    map[
      "field_name" := CStr(cf.fieldName),
      "gcs_folder" := CStr(cf.gcsFolder),
      "file_name_prefix" := CStr(cf.fileNamePrefix),
      "fields" := CSet(cf.fields)
    ]
  }

  /** `_create_custom_field_object`: `CustomField(**field)`. Python refuses a
      missing or an unexpected keyword argument with a TypeError. */
  function CreateCustomField(field: map<string, ConfigValue>): (r: Result<CustomField>)
    ensures field.Keys != CustomFieldKeys ==> r == Err(TypeError)
    ensures r.Ok? ==> field == CustomFieldConfig(r.value)
  {
    if field.Keys != CustomFieldKeys then Err(TypeError)
    else if !field["field_name"].CStr? then Err(ConfigTypeMismatch("field_name"))
    else if !field["gcs_folder"].CStr? then Err(ConfigTypeMismatch("gcs_folder"))
    else if !field["file_name_prefix"].CStr? then Err(ConfigTypeMismatch("file_name_prefix"))
    else if !field["fields"].CSet? then Err(ConfigTypeMismatch("fields"))
    else
      var cf := CustomField(field["field_name"].s, field["gcs_folder"].s,
                            field["file_name_prefix"].s, field["fields"].items);
      assert field == CustomFieldConfig(cf);
      Ok(cf)
  }

  /** Building a descriptor from its own configuration dict gives it back. */
  lemma CreateCustomFieldRoundTrip(cf: CustomField)
    ensures CreateCustomField(CustomFieldConfig(cf)) == Ok(cf)
  {
    assert CustomFieldConfig(cf).Keys == CustomFieldKeys;
  }

  /** `config.get("nested_fields")`. */
  function NestedFieldsAt(config: ConfigEntry): Result<Option<seq<string>>>
  {
    if "nested_fields" !in config then Ok(None)
    else if config["nested_fields"].CList? then Ok(Some(config["nested_fields"].elems))
    else Err(ConfigTypeMismatch("nested_fields"))
  }

  /** `if config.get("custom_field"): _create_custom_field_object(...)`: only a
      truthy value is used, and `**` needs a mapping. */
  function CustomFieldAt(config: ConfigEntry): Result<Option<CustomField>>
  {
    if "custom_field" !in config || !CTruthy(config["custom_field"]) then Ok(None)
    else if !config["custom_field"].CDict? then Err(TypeError)
    else
      match CreateCustomField(config["custom_field"].entries)
      case Ok(cf) => Ok(Some(cf))
      case Err(e) => Err(e)
  }

  /** The seven required keys are present, each holding a value of its field's type. */
  predicate RequiredWellTyped(config: ConfigEntry)
  {
    && "name" in config && config["name"].CStr?
    && "gcs_folder" in config && config["gcs_folder"].CStr?
    && "file_name_prefix" in config && config["file_name_prefix"].CStr?
    && "fields" in config && config["fields"].CSet?
    && "has_university_id" in config && config["has_university_id"].CBool?
    && "date_filter" in config && config["date_filter"].CBool?
    && "has_grad_year" in config && config["has_grad_year"].CBool?
  }

  /** `create_endpoint_object`. The seven required keys are read first, so a
      missing one is a KeyError whatever else is wrong. A configuration builds
      exactly when its required keys are present and well typed and its optional
      `nested_fields` and `custom_field` entries are usable; keys beyond these
      are ignored. */
  function CreateEndpoint(config: ConfigEntry): (r: Result<Endpoint>)
    ensures FirstMissing(config, RequiredKeys).Some? ==>
      r == Err(KeyError(FirstMissing(config, RequiredKeys).value))
    ensures r.Err? ==>
      FirstMissing(config, RequiredKeys).Some? || r.error.ConfigTypeMismatch? || r.error == TypeError
    ensures r.Ok? <==>
      RequiredWellTyped(config) && NestedFieldsAt(config).Ok? && CustomFieldAt(config).Ok?
    ensures r.Ok? ==>
      && "name" in config && config["name"] == CStr(r.value.name)
      && "gcs_folder" in config && config["gcs_folder"] == CStr(r.value.gcsFolder)
      && "file_name_prefix" in config && config["file_name_prefix"] == CStr(r.value.fileNamePrefix)
      && "fields" in config && config["fields"] == CSet(r.value.fields)
      && "has_university_id" in config && config["has_university_id"] == CBool(r.value.hasUniversityId)
      && "date_filter" in config && config["date_filter"] == CBool(r.value.dateFilter)
      && "has_grad_year" in config && config["has_grad_year"] == CBool(r.value.hasGradYear)
    ensures r.Ok? ==> (r.value.nestedFields.None? <==> "nested_fields" !in config)
    ensures r.Ok? && r.value.nestedFields.Some? ==>
      config["nested_fields"] == CList(r.value.nestedFields.value)
    ensures r.Ok? ==>
      (r.value.customField.None? <==> "custom_field" !in config || !CTruthy(config["custom_field"]))
    ensures r.Ok? && r.value.customField.Some? ==>
      config["custom_field"] == CDict(CustomFieldConfig(r.value.customField.value))
  {
    match FirstMissing(config, RequiredKeys)
    case Some(k) => Err(KeyError(k))
    case None =>
      assert forall i :: 0 <= i < |RequiredKeys| ==> RequiredKeys[i] in config;
      assert RequiredKeys[0] == "name" && RequiredKeys[1] == "gcs_folder";
      assert RequiredKeys[2] == "file_name_prefix" && RequiredKeys[3] == "fields";
      assert RequiredKeys[4] == "has_university_id" && RequiredKeys[5] == "date_filter";
      assert RequiredKeys[6] == "has_grad_year";
      var name := StrAt(config, "name");
      var folder := StrAt(config, "gcs_folder");
      var prefix := StrAt(config, "file_name_prefix");
      var fields := SetAt(config, "fields");
      var university := BoolAt(config, "has_university_id");
      var dateFilter := BoolAt(config, "date_filter");
      var gradYear := BoolAt(config, "has_grad_year");
      if name.Err? then Err(name.error)
      else if folder.Err? then Err(folder.error)
      else if prefix.Err? then Err(prefix.error)
      else if fields.Err? then Err(fields.error)
      else if university.Err? then Err(university.error)
      else if dateFilter.Err? then Err(dateFilter.error)
      else if gradYear.Err? then Err(gradYear.error)
      else
        match NestedFieldsAt(config)
        case Err(e) => Err(e)
        case Ok(nested) =>
          match CustomFieldAt(config)
          case Err(e) => Err(e)
          case Ok(custom) =>
            Ok(Endpoint(name.value, folder.value, prefix.value, fields.value, university.value,
                        dateFilter.value, gradYear.value, nested, custom))
  }

  /** The configuration dict an endpoint descriptor is built from. */
  function EndpointConfig(e: Endpoint): ConfigEntry
  {
    var base := map[
      "name" := CStr(e.name),
      "gcs_folder" := CStr(e.gcsFolder),
      "file_name_prefix" := CStr(e.fileNamePrefix),
      "fields" := CSet(e.fields),
      "has_university_id" := CBool(e.hasUniversityId),
      "date_filter" := CBool(e.dateFilter),
      "has_grad_year" := CBool(e.hasGradYear)
    ];
    var withNested := if e.nestedFields.Some? then base["nested_fields" := CList(e.nestedFields.value)] else base;
    if e.customField.Some? then withNested["custom_field" := CDict(CustomFieldConfig(e.customField.value))]
    else withNested
  }

  /** What the configuration dict of a descriptor holds under each key. */
  lemma EndpointConfigLookups(e: Endpoint)
    ensures var config := EndpointConfig(e);
      && "name" in config && config["name"] == CStr(e.name)
      && "gcs_folder" in config && config["gcs_folder"] == CStr(e.gcsFolder)
      && "file_name_prefix" in config && config["file_name_prefix"] == CStr(e.fileNamePrefix)
      && "fields" in config && config["fields"] == CSet(e.fields)
      && "has_university_id" in config && config["has_university_id"] == CBool(e.hasUniversityId)
      && "date_filter" in config && config["date_filter"] == CBool(e.dateFilter)
      && "has_grad_year" in config && config["has_grad_year"] == CBool(e.hasGradYear)
      && ("nested_fields" in config <==> e.nestedFields.Some?)
      && (e.nestedFields.Some? ==> config["nested_fields"] == CList(e.nestedFields.value))
      && ("custom_field" in config <==> e.customField.Some?)
      && (e.customField.Some? ==> config["custom_field"] == CDict(CustomFieldConfig(e.customField.value)))
  {
  }

  /** Every descriptor is rebuilt from its configuration dict. */
  lemma {:induction false} CreateEndpointRoundTrip(e: Endpoint)
    ensures CreateEndpoint(EndpointConfig(e)) == Ok(e)
  {
    var config := EndpointConfig(e);
    EndpointConfigLookups(e);
    assert FirstMissing(config, RequiredKeys) == None;
    assert NestedFieldsAt(config) == Ok(e.nestedFields);
    if e.customField.Some? {
      var cf := e.customField.value;
      CreateCustomFieldRoundTrip(cf);
      assert "field_name" in CustomFieldConfig(cf);
    }
    assert CustomFieldAt(config) == Ok(e.customField);
  }

  /** The descriptor `create_endpoint_object` builds from table entry `i`. */
  function BuiltEndpoint(i: nat): Endpoint
  {
    match i
      case 0 => Endpoint("schools", "schools", "school_", SchoolsFields, false, false, false, None, None)
      case 1 => Endpoint("students", "students", "student_", StudentsFields, false, true, true,
                         Some(["assigned_counselor", "academics", "school"]),
                         Some(CustomField("custom_field_values", "student_custom_fields", "student_custom_field_",
                                          StudentCustomFieldFields)))
      case 2 => Endpoint("admissions", "admissions", "admission_", AdmissionsFields, true, true, true,
                         Some(["student", "university", "due_date", "award_letter"]),
                         Some(CustomField("custom_field_values", "admission_custom_fields", "admission_custom_field_",
                                          AdmissionCustomFieldFields)))
      case 3 => Endpoint("followings", "followings", "following_", FollowingsFields, true, true, true,
                         Some(["student", "university"]), None)
      case 4 => Endpoint("universities", "universities", "university_", UniversitiesFields, false, false, false,
                         None, None)
      case _ => Endpoint("custom_fields", "custom_fields", "custom_field_", CustomFieldsFields, false, true, false,
                         None,
                         Some(CustomField("custom_field_options", "custom_field_options", "custom_field_",
                                          CustomFieldOptionFields)))
  }

  /** Every entry of the table builds, to the descriptor above. */
  lemma {:induction false} TableBuilds(i: nat)
    requires i < |OvergradEndpointConfigs|
    ensures CreateEndpoint(OvergradEndpointConfigs[i]) == Ok(BuiltEndpoint(i))
  {
    var config := OvergradEndpointConfigs[i];
    if i == 0 {
      assert config == SchoolsConfig;
      SchoolsBuilds();
    } else if i == 1 {
      assert config == StudentsConfig;
      StudentsBuilds();
    } else if i == 2 {
      assert config == AdmissionsConfig;
      AdmissionsBuilds();
    } else if i == 3 {
      assert config == FollowingsConfig;
      FollowingsBuilds();
    } else if i == 4 {
      assert config == UniversitiesConfig;
      UniversitiesBuilds();
    } else {
      assert config == CustomFieldsConfig;
      CustomFieldsBuilds();
    }
  }

  lemma SchoolsBuilds()
    ensures CreateEndpoint(SchoolsConfig) == Ok(BuiltEndpoint(0))
  {
    assert SchoolsConfig == EndpointConfig(BuiltEndpoint(0));
    CreateEndpointRoundTrip(BuiltEndpoint(0));
  }

  lemma StudentsBuilds()
    ensures CreateEndpoint(StudentsConfig) == Ok(BuiltEndpoint(1))
  {
    assert StudentsConfig == EndpointConfig(BuiltEndpoint(1));
    CreateEndpointRoundTrip(BuiltEndpoint(1));
  }

  lemma AdmissionsBuilds()
    ensures CreateEndpoint(AdmissionsConfig) == Ok(BuiltEndpoint(2))
  {
    assert AdmissionsConfig == EndpointConfig(BuiltEndpoint(2));
    CreateEndpointRoundTrip(BuiltEndpoint(2));
  }

  lemma FollowingsBuilds()
    ensures CreateEndpoint(FollowingsConfig) == Ok(BuiltEndpoint(3))
  {
    assert FollowingsConfig == EndpointConfig(BuiltEndpoint(3));
    CreateEndpointRoundTrip(BuiltEndpoint(3));
  }

  lemma UniversitiesBuilds()
    ensures CreateEndpoint(UniversitiesConfig) == Ok(BuiltEndpoint(4))
  {
    assert UniversitiesConfig == EndpointConfig(BuiltEndpoint(4));
    CreateEndpointRoundTrip(BuiltEndpoint(4));
  }

  lemma CustomFieldsBuilds()
    ensures CreateEndpoint(CustomFieldsConfig) == Ok(BuiltEndpoint(5))
  {
    assert CustomFieldsConfig == EndpointConfig(BuiltEndpoint(5));
    CreateEndpointRoundTrip(BuiltEndpoint(5));
  }

  /** The six built descriptors: grade-year filtering and a university id
      exactly for students, admissions and followings (the id for the last two
      only), date filtering for all but schools and universities, nested
      objects to flatten for the same three, custom-field rows for students,
      admissions and custom_fields; every allow-list keeps `id`. */
  lemma BuiltTable()
    ensures forall i :: 0 <= i < 6 ==> (BuiltEndpoint(i).hasGradYear <==> 1 <= i <= 3)
    ensures forall i :: 0 <= i < 6 ==> (BuiltEndpoint(i).hasUniversityId <==> i == 2 || i == 3)
    ensures forall i :: 0 <= i < 6 ==> (BuiltEndpoint(i).dateFilter <==> i != 0 && i != 4)
    ensures forall i :: 0 <= i < 6 ==> (BuiltEndpoint(i).nestedFields.Some? <==> 1 <= i <= 3)
    ensures forall i :: 0 <= i < 6 ==> (BuiltEndpoint(i).customField.Some? <==> i == 1 || i == 2 || i == 5)
    ensures forall i :: 0 <= i < 6 ==> "id" in BuiltEndpoint(i).fields
    ensures forall i :: 0 <= i < 6 && BuiltEndpoint(i).customField.Some? ==>
      "id" in BuiltEndpoint(i).customField.value.fields &&
      "custom_field_id" in BuiltEndpoint(i).customField.value.fields
  {
  }
}
