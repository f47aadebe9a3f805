/** The endpoint descriptor table: one constant entry per API resource the
    connector loads, written as the Python dict literals they are
    (utils/config.py:17-256). */
module Config {

  /** The kinds of value the configuration literals hold. */
  datatype ConfigValue =
    | CStr(s: string)
    | CBool(b: bool)
    | CSet(items: set<string>)
    | CList(elems: seq<string>)
    | CDict(entries: map<string, ConfigValue>)

  /** One endpoint's configuration dict. */
  type ConfigEntry = map<string, ConfigValue>

  /** Python truthiness of a configuration value. */
  predicate CTruthy(v: ConfigValue)
  {
    match v
    case CStr(s) => s != ""
    case CBool(b) => b
    case CSet(items) => items != {}
    case CList(elems) => elems != []
    case CDict(entries) => entries != map[]
  }

  /** The `schools` allow-list (utils/config.py:25-29). */
  const SchoolsFields: set<string> := {
    "id",
    "object",
    "name"
  }

  /** The `students` allow-list (utils/config.py:38-90). */
  const StudentsFields: set<string> := {
    "id",
    "object",
    "created_at",
    "updated_at",
    "email",
    "first_name",
    "last_name",
    "external_student_id",
    "graduation_year",
    "school_id",
    "school_name",
    "assigned_counselor_id",
    "assigned_counselor_first_name",
    "assigned_counselor_last_name",
    "assigned_counselor_email",
    "academics_unweighted_gpa",
    "academics_weighted_gpa",
    "academics_projected_act",
    "academics_projected_sat",
    "academics_act_superscore",
    "cademics_sat_superscore",
    "academics_highest_act",
    "academics_highest_preact",
    "academics_highest_preact_8_9",
    "academics_highest_aspire_10",
    "academics_highest_aspire_9",
    "academics_highest_sat",
    "academics_highest_psat_nmsqt",
    "academics_highest_psat_10",
    "academics_highest_psat_8_9",
    "telephone",
    "address",
    "gender",
    "birth_date",
    "ethnicity",
    "family_income",
    "fafsa_completed",
    "student_aid_index",
    "maximum_family_contribution",
    "pell_grant",
    "post_high_school_plan",
    "first_generation",
    "fathers_education",
    "mothers_education",
    "parent1_education",
    "parent2_education",
    "awards",
    "extracurricular_activities",
    "interests",
    "target_grad_rate",
    "ideal_grad_rate"
  }

  /** The `admissions` allow-list (utils/config.py:115-160). */
  const AdmissionsFields: set<string> := {
    "id",
    "object",
    "created_at",
    "updated_at",
    "student_id",
    "student_external_id",
    "university_id",
    "university_ipeds_id",
    "applied_on",
    "application_source",
    "due_date_date",
    "due_date_type",
    "status",
    "status_updated_at",
    "waitlisted",
    "deferred",
    "academic_fit",
    "probability_of_acceptance",
    "award_letter_status",
    "award_letter_tuition_and_fees",
    "award_letter_housing_and_meals",
    "award_letter_books_and_supplies",
    "award_letter_transportation",
    "award_letter_other_education_costs",
    "award_letter_grants_and_scholarships_from_school",
    "award_letter_federal_pell_grant",
    "award_letter_grants_from_state",
    "award_letter_other_scholarships",
    "award_letter_work_study",
    "award_letter_federal_perkins_loan",
    "award_letter_federal_direct_subsidized_loan",
    "award_letter_federal_direct_unsubsidized_loan",
    "award_letter_parent_plus_loan",
    "award_letter_military_benefits",
    "award_letter_private_loan",
    "award_letter_cost_of_attendance",
    "award_letter_grants_and_scholarships",
    "award_letter_net_cost",
    "award_letter_loans",
    "award_letter_other_options",
    "award_letter_out_of_pocket",
    "award_letter_unmet_need",
    "award_letter_unmet_need_with_max_family_contribution",
    "award_letter_seog"
  }

  /** The `followings` allow-list (utils/config.py:186-199). */
  const FollowingsFields: set<string> := {
    "id",
    "object",
    "created_at",
    "updated_at",
    "student_id",
    "student_external_id",
    "university_id",
    "university_ipeds_id",
    "rank",
    "academic_fit",
    "probability_of_acceptance",
    "added_by"
  }

  /** The `universities` allow-list (utils/config.py:212-220). */
  const UniversitiesFields: set<string> := {
    "id",
    "object",
    "name",
    "ipeds_id",
    "status",
    "city",
    "state"
  }

  /** The `custom_fields` allow-list (utils/config.py:229-241). */
  const CustomFieldsFields: set<string> := {
    "id",
    "object",
    "created_at",
    "updated_at",
    "name",
    "description",
    "resource_class",
    "field_type",
    "format",
    "student_can_view",
    "student_can_edit"
  }

  /** The students `custom_field` allow-list (utils/config.py:100-105). */
  const StudentCustomFieldFields: set<string> := {"id", "custom_field_id", "value_type", "value"}

  /** The admissions `custom_field` allow-list (utils/config.py:171-176). */
  const AdmissionCustomFieldFields: set<string> := {"id", "custom_field_id", "value_type", "value"}

  /** The custom_fields `custom_field` allow-list, which names
      `custom_field_id` twice (utils/config.py:246-254). */
  const CustomFieldOptionFields: set<string> :=
    {"custom_field_id", "id", "object", "created_at", "updated_at", "custom_field_id", "label"}

  /** The `schools` endpoint (utils/config.py:18-30). */
  const SchoolsConfig: ConfigEntry := map[
    "name" := CStr("schools"),
    "gcs_folder" := CStr("schools"),
    "file_name_prefix" := CStr("school_"),
    "has_university_id" := CBool(false),
    "date_filter" := CBool(false),
    "has_grad_year" := CBool(false),
    "fields" := CSet(SchoolsFields)
  ]

  /** The `students` endpoint (utils/config.py:31-107). */
  const StudentsConfig: ConfigEntry := map[
    "name" := CStr("students"),
    "gcs_folder" := CStr("students"),
    "file_name_prefix" := CStr("student_"),
    "has_university_id" := CBool(false),
    "date_filter" := CBool(true),
    "has_grad_year" := CBool(true),
    "fields" := CSet(StudentsFields),
    "nested_fields" := CList(["assigned_counselor", "academics", "school"]),
    "custom_field" := CDict(map[
      "field_name" := CStr("custom_field_values"),
      "gcs_folder" := CStr("student_custom_fields"),
      "file_name_prefix" := CStr("student_custom_field_"),
      "fields" := CSet(StudentCustomFieldFields)
    ])
  ]

  /** The `admissions` endpoint (utils/config.py:108-178). */
  const AdmissionsConfig: ConfigEntry := map[
    "name" := CStr("admissions"),
    "gcs_folder" := CStr("admissions"),
    "file_name_prefix" := CStr("admission_"),
    "has_university_id" := CBool(true),
    "date_filter" := CBool(true),
    "has_grad_year" := CBool(true),
    "fields" := CSet(AdmissionsFields),
    "nested_fields" := CList(["student", "university", "due_date", "award_letter"]),
    "custom_field" := CDict(map[
      "field_name" := CStr("custom_field_values"),
      "gcs_folder" := CStr("admission_custom_fields"),
      "file_name_prefix" := CStr("admission_custom_field_"),
      "fields" := CSet(AdmissionCustomFieldFields)
    ])
  ]

  /** The `followings` endpoint (utils/config.py:179-204). */
  const FollowingsConfig: ConfigEntry := map[
    "name" := CStr("followings"),
    "gcs_folder" := CStr("followings"),
    "file_name_prefix" := CStr("following_"),
    "has_university_id" := CBool(true),
    "date_filter" := CBool(true),
    "has_grad_year" := CBool(true),
    "fields" := CSet(FollowingsFields),
    "nested_fields" := CList(["student", "university"])
  ]

  /** The `universities` endpoint (utils/config.py:205-221). */
  const UniversitiesConfig: ConfigEntry := map[
    "name" := CStr("universities"),
    "gcs_folder" := CStr("universities"),
    "file_name_prefix" := CStr("university_"),
    "has_university_id" := CBool(false),
    "date_filter" := CBool(false),
    "has_grad_year" := CBool(false),
    "fields" := CSet(UniversitiesFields)
  ]

  /** The `custom_fields` endpoint (utils/config.py:222-256). */
  const CustomFieldsConfig: ConfigEntry := map[
    "name" := CStr("custom_fields"),
    "gcs_folder" := CStr("custom_fields"),
    "file_name_prefix" := CStr("custom_field_"),
    "has_university_id" := CBool(false),
    "date_filter" := CBool(true),
    "has_grad_year" := CBool(false),
    "fields" := CSet(CustomFieldsFields),
    "custom_field" := CDict(map[
      "field_name" := CStr("custom_field_options"),
      "gcs_folder" := CStr("custom_field_options"),
      "file_name_prefix" := CStr("custom_field_"),
      "fields" := CSet(CustomFieldOptionFields)
    ])
  ]

  /** `OVERGRAD_ENDPOINT_CONFIGS`, in its order. */
  const OvergradEndpointConfigs: seq<ConfigEntry> :=
    [SchoolsConfig, StudentsConfig, AdmissionsConfig, FollowingsConfig, UniversitiesConfig, CustomFieldsConfig]

  /** The endpoint names of a table, in order. */
  function Names(configs: seq<ConfigEntry>): (r: seq<string>)
    requires forall i :: 0 <= i < |configs| ==> "name" in configs[i] && configs[i]["name"].CStr?
    ensures |r| == |configs|
    ensures forall i :: 0 <= i < |configs| ==> configs[i]["name"] == CStr(r[i])
  {
    seq(|configs|, i requires 0 <= i < |configs| && "name" in configs[i] && configs[i]["name"].CStr? =>
      configs[i]["name"].s)
  }

  /** Six endpoints, in the order schools, students, admissions, followings,
      universities, custom_fields, no name used twice. */
  lemma TableOrder()
    ensures |OvergradEndpointConfigs| == 6
    ensures forall i :: 0 <= i < 6 ==>
      "name" in OvergradEndpointConfigs[i] && OvergradEndpointConfigs[i]["name"].CStr?
    ensures Names(OvergradEndpointConfigs)
      == ["schools", "students", "admissions", "followings", "universities", "custom_fields"]
    ensures forall i, j :: 0 <= i < j < 6 ==>
      Names(OvergradEndpointConfigs)[i] != Names(OvergradEndpointConfigs)[j]
  {
    EntryNames();
    var names := Names(OvergradEndpointConfigs);
    assert names[0] == "schools" && names[1] == "students" && names[2] == "admissions";
    assert names[3] == "followings" && names[4] == "universities" && names[5] == "custom_fields";
  }

  /** The `name` of each entry of the table. */
  lemma EntryNames()
    ensures "name" in SchoolsConfig && SchoolsConfig["name"] == CStr("schools")
    ensures "name" in StudentsConfig && StudentsConfig["name"] == CStr("students")
    ensures "name" in AdmissionsConfig && AdmissionsConfig["name"] == CStr("admissions")
    ensures "name" in FollowingsConfig && FollowingsConfig["name"] == CStr("followings")
    ensures "name" in UniversitiesConfig && UniversitiesConfig["name"] == CStr("universities")
    ensures "name" in CustomFieldsConfig && CustomFieldsConfig["name"] == CStr("custom_fields")
  {
  }

  /** Every `custom_field` dict of the table has exactly the keys `field_name`,
      `gcs_folder`, `file_name_prefix` and `fields`. */
  lemma CustomFieldDictKeys()
    ensures forall i :: 0 <= i < |OvergradEndpointConfigs| && "custom_field" in OvergradEndpointConfigs[i] ==>
      OvergradEndpointConfigs[i]["custom_field"].CDict? &&
      OvergradEndpointConfigs[i]["custom_field"].entries.Keys
        == {"field_name", "gcs_folder", "file_name_prefix", "fields"}
  {
  }

  /** The students allow-list spells `cademics_sat_superscore`: the key that
      flattening the `academics` object produces, `academics_sat_superscore`,
      is not in it. */
  lemma StudentsSatSuperscoreSpelling()
    ensures "cademics_sat_superscore" in StudentsFields
    ensures "academics_sat_superscore" !in StudentsFields
  {
    StudentsFieldsLacksSatSuperscore();
  }

  /** The correctly spelt key is in none of the three runs of the
      students allow-list. */
  lemma StudentsFieldsLacksSatSuperscore()
    ensures "academics_sat_superscore" !in StudentsFields
  {
    var x := "academics_sat_superscore";
    var a := {
        "id", "object", "created_at", "updated_at", "email", "first_name", "last_name",
        "external_student_id", "graduation_year", "school_id", "school_name",
        "assigned_counselor_id", "assigned_counselor_first_name", "assigned_counselor_last_name",
        "assigned_counselor_email"};
    var b := {"academics_unweighted_gpa", "academics_weighted_gpa",
        "academics_projected_act", "academics_projected_sat", "academics_act_superscore",
        "cademics_sat_superscore", "academics_highest_act", "academics_highest_preact",
        "academics_highest_preact_8_9", "academics_highest_aspire_10",
        "academics_highest_aspire_9", "academics_highest_sat", "academics_highest_psat_nmsqt",
        "academics_highest_psat_10", "academics_highest_psat_8_9"};
    var c := { "telephone", "address",
        "gender", "birth_date", "ethnicity", "family_income", "fafsa_completed",
        "student_aid_index", "maximum_family_contribution", "pell_grant", "post_high_school_plan",
        "first_generation", "fathers_education", "mothers_education", "parent1_education",
        "parent2_education", "awards", "extracurricular_activities", "interests",
        "target_grad_rate", "ideal_grad_rate"
      };
    assert StudentsFields == a + b + c;
    assert x !in a;
    assert x !in b;
    assert x !in c;
  }
}
