/**
 * The fixed catalog of shareable personal-data fields shown by the consent
 * page (`dataFields`, `requiredFields`, `hasRequiredData`,
 * `getCategoryFields` and the category list in
 * src/pages/SolidPodInterface.tsx).
 */
module FieldCatalog {

  datatype Category = Basic | Contact | Personal | Professional

  /** The id a category is written with. */
  function CategoryId(c: Category): string
  {
    match c
    case Basic => "basic"
    case Contact => "contact"
    case Personal => "personal"
    case Professional => "professional"
  }

  datatype DataField = DataField(id: string, displayLabel: string, description: string, required: bool, category: Category)

  const DataFields: seq<DataField> := [
    DataField("name", "Full Name", "First and last name", true, Basic),
    DataField("email", "Email Address", "Primary email contact", true, Contact),
    DataField("phone", "Mobile Number", "Phone number for contact", false, Contact),
    DataField("address", "Residential Address", "Full home address", false, Contact),
    DataField("dateOfBirth", "Date of Birth", "Birth date for age verification", false, Personal),
    DataField("maritalStatus", "Marital Status", "Current marital status", false, Personal),
    DataField("jobPosition", "Job Position", "Current employment title", false, Professional),
    DataField("employer", "Employer", "Current company/organization", false, Professional),
    DataField("income", "Annual Income", "Yearly income information", false, Professional)
  ]

  /** The category sections in the order the page lists them. */
  const Categories: seq<Category> := [Basic, Contact, Personal, Professional]

  /** The two filters the page applies to the catalog. */
  datatype Criterion = IsRequired | InCategory(name: string)

  predicate Keeps(keep: Criterion, f: DataField)
  {
    match keep
    case IsRequired => f.required
    case InCategory(name) => CategoryId(f.category) == name
  }

  /** `fs.filter(...)`: the fields that satisfy the criterion, in their original order. */
  function Filter(fs: seq<DataField>, keep: Criterion): seq<DataField>
  {
    if fs == [] then []
    else (if Keeps(keep, fs[0]) then [fs[0]] else []) + Filter(fs[1..], keep)
  }

  /** A field is kept iff it is in the list and meets the criterion. */
  lemma {:induction false} FilterMembers(fs: seq<DataField>, keep: Criterion, f: DataField)
    ensures f in Filter(fs, keep) <==> f in fs && Keeps(keep, f)
  {
    if fs != [] {
      FilterMembers(fs[1..], keep, f);
      assert fs == [fs[0]] + fs[1..];
    }
  }

  /** Filtering distributes over concatenation, so it keeps the relative order of what it keeps. */
  lemma {:induction false} FilterAppend(a: seq<DataField>, b: seq<DataField>, keep: Criterion)
    ensures Filter(a + b, keep) == Filter(a, keep) + Filter(b, keep)
  {
    if a == [] {
      assert a + b == b;
    } else {
      assert (a + b)[0] == a[0];
      assert (a + b)[1..] == a[1..] + b;
      FilterAppend(a[1..], b, keep);
    }
  }

  function Ids(fs: seq<DataField>): (ids: seq<string>)
    ensures |ids| == |fs| && forall i :: 0 <= i < |fs| ==> ids[i] == fs[i].id
  {
    if fs == [] then [] else [fs[0].id] + Ids(fs[1..])
  }

  /** `dataFields.map(f => f.id)`: the ids the consent page requests. */
  function CatalogIds(): seq<string>
  {
    Ids(DataFields)
  }

  /** `requiredFields`: the catalog fields marked required. */
  function RequiredFields(): seq<DataField>
  {
    Filter(DataFields, IsRequired)
  }

  /** `hasRequiredData`: every required field's id occurs in the selection. */
  predicate HasRequiredData(selected: seq<string>)
  {
    forall f :: f in RequiredFields() ==> f.id in selected
  }

  /** `getCategoryFields(category)`: the catalog fields of that category, in catalog order. */
  function CategoryFields(category: string): seq<DataField>
  {
    Filter(DataFields, InCategory(category))
  }

  /** The catalog has nine fields and no two of them share an id. */
  lemma CatalogIdsDistinct()
    ensures |DataFields| == 9
    ensures forall i, j :: 0 <= i < j < |DataFields| ==> DataFields[i].id != DataFields[j].id
  {
  }

  /** The required fields are exactly `name` and `email`, in that order. */
  lemma RequiredFieldsAreNameAndEmail()
    ensures RequiredFields() == [DataFields[0], DataFields[1]]
    ensures Ids(RequiredFields()) == ["name", "email"]
  {
    var fs := DataFields;
    NoneKept(fs[2..], IsRequired);
    assert Filter(fs[1..], IsRequired) == [fs[1]] + Filter(fs[2..], IsRequired) by {
      assert fs[1..][1..] == fs[2..];
    }
  }

  lemma {:induction false} NoneKept(fs: seq<DataField>, keep: Criterion)
    requires forall i :: 0 <= i < |fs| ==> !Keeps(keep, fs[i])
    ensures Filter(fs, keep) == []
  {
    if fs != [] {
      NoneKept(fs[1..], keep);
    }
  }

  /**
   * The required-field gate: the selection holds every required field iff it
   * holds `name` and `email`, whatever else it holds.
   */
  lemma HasRequiredDataIff(selected: seq<string>)
    ensures HasRequiredData(selected) <==> "name" in selected && "email" in selected
  {
    RequiredFieldsAreNameAndEmail();
    assert DataFields[0] in RequiredFields() && DataFields[1] in RequiredFields();
  }

  /** A criterion met exactly by the fields in `fs[lo..hi]` filters `fs` down to that slice. */
  lemma FilterSlice(fs: seq<DataField>, keep: Criterion, lo: nat, hi: nat)
    requires lo <= hi <= |fs|
    requires forall i :: 0 <= i < |fs| ==> (Keeps(keep, fs[i]) <==> lo <= i < hi)
    ensures Filter(fs, keep) == fs[lo..hi]
  {
    assert fs == fs[..lo] + fs[lo..hi] + fs[hi..];
    FilterAppend(fs[..lo] + fs[lo..hi], fs[hi..], keep);
    FilterAppend(fs[..lo], fs[lo..hi], keep);
    NoneKept(fs[..lo], keep);
    AllKept(fs[lo..hi], keep);
    NoneKept(fs[hi..], keep);
  }

  lemma BasicSection()
    ensures CategoryFields("basic") == DataFields[..1]
  {
    FilterSlice(DataFields, InCategory("basic"), 0, 1);
  }

  lemma ContactSection()
    ensures CategoryFields("contact") == DataFields[1..4]
  {
    FilterSlice(DataFields, InCategory("contact"), 1, 4);
  }

  lemma PersonalSection()
    ensures CategoryFields("personal") == DataFields[4..6]
  {
    FilterSlice(DataFields, InCategory("personal"), 4, 6);
  }

  lemma ProfessionalSection()
    ensures CategoryFields("professional") == DataFields[6..]
  {
    FilterSlice(DataFields, InCategory("professional"), 6, 9);
  }

  /**
   * The four category sections partition the catalog: listed one after the
   * other in the page's order they give back the catalog itself, in order.
   */
  lemma CategoriesPartitionCatalog()
    ensures CategoryFields(CategoryId(Categories[0])) + CategoryFields(CategoryId(Categories[1]))
      + CategoryFields(CategoryId(Categories[2])) + CategoryFields(CategoryId(Categories[3])) == DataFields
  {
    BasicSection();
    ContactSection();
    PersonalSection();
    ProfessionalSection();
    Reassemble(DataFields, 1, 4, 6);
  }

  lemma Reassemble(fs: seq<DataField>, i: nat, j: nat, k: nat)
    requires i <= j <= k <= |fs|
    ensures fs[..i] + fs[i..j] + fs[j..k] + fs[k..] == fs
  {
  }

  lemma {:induction false} AllKept(fs: seq<DataField>, keep: Criterion)
    requires forall i :: 0 <= i < |fs| ==> Keeps(keep, fs[i])
    ensures Filter(fs, keep) == fs
  {
    if fs != [] {
      AllKept(fs[1..], keep);
      assert [fs[0]] + fs[1..] == fs;
    }
  }

  /** A name that is not one of the four category ids selects no field. */
  lemma UnknownCategoryIsEmpty(category: string)
    requires category !in ["basic", "contact", "personal", "professional"]
    ensures CategoryFields(category) == []
  {
    NoneKept(DataFields, InCategory(category));
  }
}
