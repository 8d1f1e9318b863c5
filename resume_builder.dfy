/**
 * The resume builder's data and the handlers that derive a new copy of it. An
 * experience or education entry is a record keyed by field name, because the
 * update handlers take the field name as a string; its `id` is the text of
 * `Date.now()` at the moment it was added, which is a parameter here.
 */
module ResumeBuilder {
  import ListOps

  datatype PersonalInfo = PersonalInfo(name: string, email: string, phone: string, location: string, summary: string)

  /** `keyof ResumeData['personalInfo']`. */
  datatype PersonalField = Name | Email | Phone | Location | Summary

  /** An experience or education entry: field name to text. */
  type Entry = map<string, string>

  datatype ResumeData = ResumeData(
    personalInfo: PersonalInfo, experience: seq<Entry>, education: seq<Entry>, skills: seq<string>)

  /** The state the page starts from: empty personal information and no entries. */
  const Initial := ResumeData(PersonalInfo("", "", "", "", ""), [], [], [])

  /** `info[field]`. */
  function Get(info: PersonalInfo, field: PersonalField): string {
    match field
    case Name => info.name
    case Email => info.email
    case Phone => info.phone
    case Location => info.location
    case Summary => info.summary
  }

  /** `entry.id === id`; an entry without an `id` matches no id. */
  predicate HasId(e: Entry, id: string) {
    "id" in e && e["id"] == id
  }

  /** The entry `addExperience` appends. */
  function NewExperience(id: string): (e: Entry)
    ensures HasId(e, id)
    ensures forall k :: k in e && k != "id" ==> e[k] == ""
    ensures e.Keys == {"id", "company", "position", "startDate", "endDate", "description"}
  {
    map["id" := id, "company" := "", "position" := "", "startDate" := "", "endDate" := "", "description" := ""]
  }

  /** The entry `addEducation` appends. */
  function NewEducation(id: string): (e: Entry)
    ensures HasId(e, id)
    ensures forall k :: k in e && k != "id" ==> e[k] == ""
    ensures e.Keys == {"id", "institution", "degree", "startDate", "endDate", "description"}
  {
    map["id" := id, "institution" := "", "degree" := "", "startDate" := "", "endDate" := "", "description" := ""]
  }

  /** `entries.map(e => e.id === id ? {...e, [field]: value} : e)`. */
  function UpdateWithId(es: seq<Entry>, id: string, field: string, value: string): (r: seq<Entry>)
    ensures |r| == |es|
    ensures forall k :: 0 <= k < |es| && HasId(es[k], id) ==> r[k] == es[k][field := value]
    ensures forall k :: 0 <= k < |es| && !HasId(es[k], id) ==> r[k] == es[k]
  {
    if es == [] then []
    else [if HasId(es[0], id) then es[0][field := value] else es[0]] + UpdateWithId(es[1..], id, field, value)
  }

  /** `entries.filter(e => e.id !== id)`. */
  function RemoveWithId(es: seq<Entry>, id: string): (r: seq<Entry>)
    ensures forall k :: 0 <= k < |r| ==> !HasId(r[k], id) && r[k] in es
    ensures forall k :: 0 <= k < |es| && !HasId(es[k], id) ==> es[k] in r
  {
    ListOps.Filter(es, e => !HasId(e, id))
  }

  /** `skills.map((s, i) => i === index ? value : s)`. */
  function UpdateAt(skills: seq<string>, index: int, value: string): (r: seq<string>)
    ensures |r| == |skills|
    ensures 0 <= index < |skills| ==> r[index] == value
    ensures forall k :: 0 <= k < |skills| && k != index ==> r[k] == skills[k]
  {
    if skills == [] then []
    else [if index == 0 then value else skills[0]] + UpdateAt(skills[1..], index - 1, value)
  }

  /** `skills.filter((_, i) => i !== index)`. */
  function RemoveAt(skills: seq<string>, index: int): (r: seq<string>)
    ensures 0 <= index < |skills| ==> r == skills[..index] + skills[index + 1..]
    ensures !(0 <= index < |skills|) ==> r == skills
  {
    if skills == [] then []
    else
      var rest := RemoveAt(skills[1..], index - 1);
      if index == 0 then rest
      else
        assert 0 < index < |skills| ==> skills[1..][..index - 1] == skills[1..index];
        assert skills == [skills[0]] + skills[1..];
        [skills[0]] + rest
  }

  /** `addExperience`: one new empty entry at the end of the experience list; nothing else changes. */
  function AddExperience(r: ResumeData, id: string): (s: ResumeData)
    ensures |s.experience| == |r.experience| + 1 && s.experience[..|r.experience|] == r.experience
    ensures s.experience[|r.experience|] == NewExperience(id)
    ensures s.personalInfo == r.personalInfo && s.education == r.education && s.skills == r.skills
  {
    r.(experience := r.experience + [NewExperience(id)])
  }

  /** `addEducation`: one new empty entry at the end of the education list; nothing else changes. */
  function AddEducation(r: ResumeData, id: string): (s: ResumeData)
    ensures |s.education| == |r.education| + 1 && s.education[..|r.education|] == r.education
    ensures s.education[|r.education|] == NewEducation(id)
    ensures s.personalInfo == r.personalInfo && s.experience == r.experience && s.skills == r.skills
  {
    r.(education := r.education + [NewEducation(id)])
  }

  /** `addSkill`: an empty skill at the end; nothing else changes. */
  function AddSkill(r: ResumeData): (s: ResumeData)
    ensures |s.skills| == |r.skills| + 1 && s.skills[..|r.skills|] == r.skills && s.skills[|r.skills|] == ""
    ensures s.personalInfo == r.personalInfo && s.experience == r.experience && s.education == r.education
  {
    r.(skills := r.skills + [""])
  }

  /** `updatePersonalInfo`: exactly the named field takes the value. */
  function UpdatePersonalInfo(r: ResumeData, field: PersonalField, value: string): (s: ResumeData)
    ensures Get(s.personalInfo, field) == value
    ensures forall other :: other != field ==> Get(s.personalInfo, other) == Get(r.personalInfo, other)
    ensures s.experience == r.experience && s.education == r.education && s.skills == r.skills
  {
    var p := r.personalInfo;
    var q := match field
      case Name => p.(name := value)
      case Email => p.(email := value)
      case Phone => p.(phone := value)
      case Location => p.(location := value)
      case Summary => p.(summary := value);
    r.(personalInfo := q)
  }

  /** `updateExperience`: the field is set on every experience entry with that id. */
  function UpdateExperience(r: ResumeData, id: string, field: string, value: string): (s: ResumeData)
    ensures s.experience == UpdateWithId(r.experience, id, field, value)
    ensures s.personalInfo == r.personalInfo && s.education == r.education && s.skills == r.skills
  {
    r.(experience := UpdateWithId(r.experience, id, field, value))
  }

  /** `updateEducation`: the field is set on every education entry with that id. */
  function UpdateEducation(r: ResumeData, id: string, field: string, value: string): (s: ResumeData)
    ensures s.education == UpdateWithId(r.education, id, field, value)
    ensures s.personalInfo == r.personalInfo && s.experience == r.experience && s.skills == r.skills
  {
    r.(education := UpdateWithId(r.education, id, field, value))
  }

  /** `updateSkill`: only the skill at the index changes. */
  function UpdateSkill(r: ResumeData, index: int, value: string): (s: ResumeData)
    ensures s.skills == UpdateAt(r.skills, index, value)
    ensures s.personalInfo == r.personalInfo && s.experience == r.experience && s.education == r.education
  {
    r.(skills := UpdateAt(r.skills, index, value))
  }

  /** `removeExperience`: every experience entry with that id goes. */
  function RemoveExperience(r: ResumeData, id: string): (s: ResumeData)
    ensures s.experience == RemoveWithId(r.experience, id)
    ensures s.personalInfo == r.personalInfo && s.education == r.education && s.skills == r.skills
  {
    r.(experience := RemoveWithId(r.experience, id))
  }

  /** `removeEducation`: every education entry with that id goes. */
  function RemoveEducation(r: ResumeData, id: string): (s: ResumeData)
    ensures s.education == RemoveWithId(r.education, id)
    ensures s.personalInfo == r.personalInfo && s.experience == r.experience && s.skills == r.skills
  {
    r.(education := RemoveWithId(r.education, id))
  }

  /** `removeSkill`: the skill at the index goes. */
  function RemoveSkill(r: ResumeData, index: int): (s: ResumeData)
    ensures s.skills == RemoveAt(r.skills, index)
    ensures s.personalInfo == r.personalInfo && s.experience == r.experience && s.education == r.education
  {
    r.(skills := RemoveAt(r.skills, index))
  }

  /** Removal keeps the other entries in their order, with their multiplicities. */
  lemma RemoveKeepsOrder(es: seq<Entry>, id: string)
    ensures ListOps.IsSublist(RemoveWithId(es, id), es)
    ensures forall e :: !HasId(e, id) ==> multiset(RemoveWithId(es, id))[e] == multiset(es)[e]
  {
    ListOps.FilterIsOrderedSelection(es, e => !HasId(e, id));
  }

  /** Adding an experience under a fresh id and removing that id restores the resume. */
  lemma AddThenRemoveExperience(r: ResumeData, id: string)
    requires forall k :: 0 <= k < |r.experience| ==> !HasId(r.experience[k], id)
    ensures RemoveExperience(AddExperience(r, id), id) == r
  {
    var p := (e: Entry) => !HasId(e, id);
    ListOps.FilterAppend(r.experience, [NewExperience(id)], p);
    ListOps.FilterKeepsAll(r.experience, p);
    assert ListOps.Filter([NewExperience(id)], p) == [];
  }

  /** Adding an education entry under a fresh id and removing that id restores the resume. */
  lemma AddThenRemoveEducation(r: ResumeData, id: string)
    requires forall k :: 0 <= k < |r.education| ==> !HasId(r.education[k], id)
    ensures RemoveEducation(AddEducation(r, id), id) == r
  {
    var p := (e: Entry) => !HasId(e, id);
    ListOps.FilterAppend(r.education, [NewEducation(id)], p);
    ListOps.FilterKeepsAll(r.education, p);
    assert ListOps.Filter([NewEducation(id)], p) == [];
  }

  /** Adding a skill and removing the last index restores the resume. */
  lemma AddThenRemoveSkill(r: ResumeData)
    ensures RemoveSkill(AddSkill(r), |r.skills|) == r
  {
    assert AddSkill(r).skills[..|r.skills|] == r.skills;
  }

  /** An update is read back, and a second update of the same field replaces the first. */
  lemma UpdateReadsBack(es: seq<Entry>, id: string, field: string, v1: string, v2: string, k: int)
    requires 0 <= k < |es| && HasId(es[k], id) && field != "id"
    ensures UpdateWithId(es, id, field, v1)[k][field] == v1
    ensures UpdateWithId(UpdateWithId(es, id, field, v1), id, field, v2) == UpdateWithId(es, id, field, v2)
  {
    var once := UpdateWithId(es, id, field, v1);
    var twice := UpdateWithId(once, id, field, v2);
    forall j | 0 <= j < |es|
      ensures twice[j] == UpdateWithId(es, id, field, v2)[j]
    {
      assert HasId(once[j], id) == HasId(es[j], id);
    }
  }

  /**
   * Two entries added in the same millisecond share an id: an update of one
   * changes both, and a removal of one removes both.
   */
  lemma SharedIdActsOnBoth(es: seq<Entry>, id: string, field: string, value: string, i: int, j: int)
    requires 0 <= i < j < |es| && HasId(es[i], id) && HasId(es[j], id)
    ensures UpdateWithId(es, id, field, value)[i] == es[i][field := value]
    ensures UpdateWithId(es, id, field, value)[j] == es[j][field := value]
    ensures |RemoveWithId(es, id)| <= |es| - 2
  {
    ListOps.FilterDropsTwo(es, e => !HasId(e, id), i, j);
  }

  /** Updating a skill out of range leaves the list unchanged; in range, it changes that skill only. */
  lemma UpdateSkillBounds(skills: seq<string>, index: int, value: string)
    ensures !(0 <= index < |skills|) ==> UpdateAt(skills, index, value) == skills
    ensures 0 <= index < |skills| ==> UpdateAt(skills, index, value) == skills[index := value]
  {
  }

  /** Removing a skill in range shortens the list by one. */
  lemma RemoveSkillShortens(skills: seq<string>, index: int)
    requires 0 <= index < |skills|
    ensures |RemoveAt(skills, index)| == |skills| - 1
    ensures multiset(RemoveAt(skills, index)) + multiset{skills[index]} == multiset(skills)
  {
    ListOps.RemoveOneCount(skills, index);
  }
}
