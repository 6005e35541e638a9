/** The user's own profile page (client/src/pages/Profile.js): the form loaded from the
    signed-in user, field edits, and the skill list editor. */
module Profile {
  import opened Common
  import opened Text
  import opened Forms
  import opened Users

  function LocationFields(l: Location): map<string, FormValue> {
    var m: map<string, FormValue> := map[];
    var m := if l.city.Some? then m["city" := Text(l.city.value)] else m;
    var m := if l.state.Some? then m["state" := Text(l.state.value)] else m;
    var m := if l.country.Some? then m["country" := Text(l.country.value)] else m;
    if l.zipCode.Some? then m["zipCode" := Text(l.zipCode.value)] else m
  }

  const EmptyLocation: map<string, FormValue> :=
    map["city" := Text(""), "state" := Text(""), "country" := Text(""), "zipCode" := Text("")]

  /** The form the page fills from the user: missing or empty text becomes '', missing skills
      become [], a missing or zero experience 0, a missing location an empty one. */
  function ProfileForm(u: User): (f: Form)
    ensures f.Keys == {"name", "email", "phone", "location", "skills", "bio", "experience"}
    ensures f["name"] == Text(u.name) && f["email"] == Text(u.email)
    ensures f["phone"] == Text(u.phone.GetOr("")) && f["bio"] == Text(u.bio.GetOr(""))
    ensures f["skills"] == Items(u.skills)
    ensures f["experience"] == Num(u.experience.GetOr(0))
    ensures u.location.None? ==> f["location"] == Group(EmptyLocation)
    ensures u.location.Some? ==> f["location"] == Group(LocationFields(u.location.value))
  {
    map[
      "name" := Text(u.name),
      "email" := Text(u.email),
      "phone" := Text(u.phone.GetOr("")),
      "location" := Group(if u.location.Some? then LocationFields(u.location.value) else EmptyLocation),
      "skills" := Items(u.skills),
      "bio" := Text(u.bio.GetOr("")),
      "experience" := Num(u.experience.GetOr(0))]
  }

  /** `handleChange` on the profile form. */
  function ProfileChange(form: Form, name: string, value: string): Form {
    SetField(form, name, Text(value))
  }

  /** `handleAddSkill`: the trimmed input is added at the end, and the input cleared, when it is
      non-empty and not in the list yet; otherwise nothing changes. */
  function AddSkill(skills: seq<string>, newSkill: string): (r: (seq<string>, string))
    ensures var t := Trim(newSkill);
      && (t != "" && t !in skills ==> r == (skills + [t], ""))
      && (t == "" || t in skills ==> r == (skills, newSkill))
  {
    var t := Trim(newSkill);
    if t != "" && t !in skills then (skills + [t], "") else (skills, newSkill)
  }

  /** An add keeps a duplicate-free list duplicate-free, adds only trimmed text, clears the input
      exactly when it adds, and never loses a skill. */
  lemma AddSkillSpec(skills: seq<string>, newSkill: string)
    requires NoDup(skills)
    ensures var r := AddSkill(skills, newSkill);
      && NoDup(r.0)
      && (r.1 == "" <==> |r.0| == |skills| + 1 || newSkill == "")
      && r.0[..|skills|] == skills
      && (|r.0| > |skills| ==> IsTrimmed(r.0[|skills|]) && r.0[|skills|] !in skills)
  {
    var t := Trim(newSkill);
    TrimSpec(newSkill);
    if t != "" && t !in skills {
      var s := skills + [t];
      forall i, j | 0 <= i < j < |s| ensures s[i] != s[j] {
        if j == |skills| {
          assert s[i] in skills;
        }
      }
    } else if newSkill != "" {
      assert AddSkill(skills, newSkill).1 == newSkill;
    }
  }

  /** `handleRemoveSkill`: every entry equal to the skill is dropped, the others kept in order. */
  function RemoveSkill(skills: seq<string>, skill: string): (r: seq<string>)
    ensures skill !in r
    ensures forall x :: x in r <==> x in skills && x != skill
  {
    Filter(skills, x => x != skill)
  }

  /** Removing works entry by entry and keeps the order: an entry equal to the skill goes, any
      other stays where it was, and each other skill keeps its number of occurrences. */
  lemma RemoveSkillOrder(a: seq<string>, b: seq<string>, x: string, skill: string)
    ensures RemoveSkill(a + b, skill) == RemoveSkill(a, skill) + RemoveSkill(b, skill)
    ensures RemoveSkill([x], skill) == if x == skill then [] else [x]
  {
    FilterAppend(a, b, y => y != skill);
    assert [x][1..] == [];
  }

  lemma {:induction false} RemoveSkillCount(skills: seq<string>, skill: string)
    ensures multiset(RemoveSkill(skills, skill)) == multiset(skills)[skill := 0]
  {
    if skills != [] {
      var rest := skills[1..];
      assert skills == [skills[0]] + rest;
      RemoveSkillCount(rest, skill);
      RemoveSkillOrder([skills[0]], rest, skills[0], skill);
    }
  }

  /** Removing the skill just added gives the list back. */
  lemma {:induction false} RemoveUndoesAdd(skills: seq<string>, t: string)
    requires t !in skills
    ensures RemoveSkill(skills + [t], t) == skills
  {
    if skills == [] {
      assert [t][1..] == [];
    } else {
      assert (skills + [t])[1..] == skills[1..] + [t];
      RemoveUndoesAdd(skills[1..], t);
      assert [skills[0]] + skills[1..] == skills;
    }
  }

  /** Removing keeps a duplicate-free list duplicate-free. */
  lemma {:induction false} RemoveKeepsNoDup(skills: seq<string>, skill: string)
    requires NoDup(skills)
    ensures NoDup(RemoveSkill(skills, skill))
  {
    if skills != [] {
      var rest := skills[1..];
      assert NoDup(rest) by {
        forall i, j | 0 <= i < j < |rest| ensures rest[i] != rest[j] { assert rest[i] == skills[i + 1] && rest[j] == skills[j + 1]; }
      }
      RemoveKeepsNoDup(rest, skill);
      if skills[0] != skill {
        var r := RemoveSkill(rest, skill);
        assert skills[0] !in rest by {
          forall j | 0 <= j < |rest| ensures rest[j] != skills[0] { assert rest[j] == skills[j + 1]; }
        }
        assert skills[0] !in r;
        var s := [skills[0]] + r;
        forall i, j | 0 <= i < j < |s| ensures s[i] != s[j] {
          if i == 0 {
            assert s[j] == r[j - 1];
          } else {
            assert s[i] == r[i - 1] && s[j] == r[j - 1];
          }
        }
      }
    }
  }
}
