/** Account registration: the password rule (a regular expression), the
    upazila options derived from the chosen district, and the user record
    that registration stores. */
module Register {
  import opened Js
  import opened Records
  import opened Geo

  /** Characters that JavaScript's `.` refuses to match: the line terminators. */
  predicate LineTerminator(c: char) {
    c == '\n' || c == '\r' || c == '\U{2028}' || c == '\U{2029}'
  }

  predicate Dot(c: char) {
    !LineTerminator(c)
  }

  predicate Lower(c: char) {
    'a' <= c <= 'z'
  }

  predicate Upper(c: char) {
    'A' <= c <= 'Z'
  }

  /** The lookahead `(?=.*[a-z])` at the start of `s`: some lowercase letter is
      reached from the start over characters `.` matches. */
  predicate LooksAheadTo(s: string, lower: bool) {
    exists k :: 0 <= k < |s| && (if lower then Lower(s[k]) else Upper(s[k])) &&
      forall j :: 0 <= j < k ==> Dot(s[j])
  }

  /** `/^(?=.*[a-z])(?=.*[A-Z]).{6,}$/.test(s)`, clause by clause: both
      lookaheads at position 0, then at least six `.` up to the end (`$`
      without the multiline flag matches only at the end of the input). */
  predicate RegexTest(s: string) {
    LooksAheadTo(s, true) && LooksAheadTo(s, false) &&
    |s| >= 6 && forall j :: 0 <= j < |s| ==> Dot(s[j])
  }

  /** The password rule in words: at least six characters, none a line
      terminator, at least one lowercase and one uppercase ASCII letter. */
  predicate PasswordRule(s: string) {
    |s| >= 6 &&
    (forall j :: 0 <= j < |s| ==> Dot(s[j])) &&
    (exists i :: 0 <= i < |s| && Lower(s[i])) &&
    (exists i :: 0 <= i < |s| && Upper(s[i]))
  }

  /** The regular expression accepts exactly the passwords the rule describes. */
  lemma RegexMeansRule(s: string)
    ensures RegexTest(s) <==> PasswordRule(s)
  {
    if PasswordRule(s) {
      var i :| 0 <= i < |s| && Lower(s[i]);
      var k :| 0 <= k < |s| && Upper(s[k]);
      assert forall j :: 0 <= j < i ==> Dot(s[j]);
      assert forall j :: 0 <= j < k ==> Dot(s[j]);
      assert LooksAheadTo(s, true);
      assert LooksAheadTo(s, false);
    }
    if RegexTest(s) {
      var i :| 0 <= i < |s| && Lower(s[i]) && forall j :: 0 <= j < i ==> Dot(s[j]);
      var k :| 0 <= k < |s| && Upper(s[k]) && forall j :: 0 <= j < k ==> Dot(s[j]);
    }
  }

  /** Some passwords on either side of the rule. */
  lemma PasswordExamples()
    ensures PasswordRule("Abcdef")
    ensures !PasswordRule("Abcde")
    ensures !PasswordRule("abcdef")
    ensures !PasswordRule("ABCDEF")
    ensures !PasswordRule("Abc\ndef")
  {
    assert "Abcdef"[0] == 'A' && "Abcdef"[1] == 'b';
    assert "Abc\ndef"[3] == '\n';
  }

  const PasswordError := "Password must contain at least 6 characters, one uppercase and one lowercase letter."

  /** The record posted to `/users` (`formData` of `handleRegister`). */
  datatype NewUser = NewUser(
    name: string, email: string, avatar: string, bloodGroup: string,
    district: string, upazila: string, role: string, status: string)

  /** The state of the registration page that the handlers change. */
  class RegisterPage {
    var districts: seq<District>
    var allUpazilas: seq<Upazila>
    var selectedDistrict: string
    var selectedUpazila: string
    var error: string

    constructor (districts: seq<District>, allUpazilas: seq<Upazila>)
      ensures this.districts == districts && this.allUpazilas == allUpazilas
      ensures selectedDistrict == "" && selectedUpazila == "" && error == ""
    {
      this.districts, this.allUpazilas := districts, allUpazilas;
      selectedDistrict, selectedUpazila, error := "", "", "";
    }

    /** `filteredUpazilas`, recomputed on every render: ids compared with `===`. */
    function FilteredUpazilas(): (r: seq<Upazila>)
      reads this
      ensures FindDistrict(districts, selectedDistrict).None? ==> r == []
      ensures forall u :: u in r <==>
        u in allUpazilas && FindDistrict(districts, selectedDistrict).Some? &&
        u.districtId == FindDistrict(districts, selectedDistrict).value.id
    {
      UpazilaOptions(districts, allUpazilas, selectedDistrict, Strict)
    }

    /** `handleDistrictChange` */
    method DistrictChanged(name: string)
      modifies this
      ensures selectedDistrict == name && selectedUpazila == ""
      ensures districts == old(districts) && allUpazilas == old(allUpazilas) && error == old(error)
    {
      selectedDistrict, selectedUpazila := name, "";
    }

    /** The upazila select. */
    method UpazilaChanged(name: string)
      modifies this
      ensures selectedUpazila == name
      ensures districts == old(districts) && allUpazilas == old(allUpazilas)
      ensures selectedDistrict == old(selectedDistrict) && error == old(error)
    {
      selectedUpazila := name;
    }

    /** `handleRegister` up to the record it posts. A rejected password sets the
        error and returns nothing, so no image is uploaded and no account is
        created; `avatarUrl` is the image host's answer otherwise. */
    method Submit(name: string, email: string, bloodGroup: string, password: string, avatarUrl: string)
      returns (record: Option<NewUser>)
      modifies this
      ensures record.Some? <==> PasswordRule(password)
      ensures error == if PasswordRule(password) then "" else PasswordError
      ensures record.Some? ==>
                record.value == NewUser(name, email, avatarUrl, bloodGroup, old(selectedDistrict), old(selectedUpazila), Donor, Active)
      ensures districts == old(districts) && allUpazilas == old(allUpazilas)
      ensures selectedDistrict == old(selectedDistrict) && selectedUpazila == old(selectedUpazila)
    {
      RegexMeansRule(password);
      if !RegexTest(password) {
        error := PasswordError;
        return None;
      }
      error := "";
      record := Some(NewUser(name, email, avatarUrl, bloodGroup, selectedDistrict, selectedUpazila, Donor, Active));
    }
  }
}
