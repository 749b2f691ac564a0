/** What `validateForm` promises, stated on the object it returns: which keys
    it holds and with which message, field by field. */
module ValidationProperties {
  import opened Formats
  import opened Regex
  import opened Validation

  /** The entry the returned object holds under `key`, if any. */
  function Reported(data: Record, key: string): Option<string> {
    Lookup(ErrorObject(Validate(data)), key)
  }

  /** The object holds, under a field's name, the text of the message that
      field's own check produces, and nothing when the check passes. */
  lemma ReportedIsFieldError(data: Record, f: Field)
    ensures Reported(data, Key(f)) == match FieldError(data, f) case Some(m) => Some(Text(m)) case None => None
  {
    var obj := ErrorObject(Validate(data));
    assert Key(f) in obj <==> f in Validate(data);
  }

  // ---------------------------------------------------------------------------
  // Field by field

  /** `applName`: one message both for a missing value and for one shorter
      than three UTF-16 code units. */
  lemma ApplNameOutcome(data: Record)
    ensures FieldError(data, ApplName) ==
      if !Truthy(Lookup(data, "applName")) || Utf16Length(data["applName"]) < 3
      then Some(ApplNameRequired)
      else None
  {
  }

  /** A character outside the Basic Multilingual Plane counts twice towards
      the minimum length, as it does in JavaScript. */
  lemma AstralCharacterCountsTwice(data: Record)
    requires Lookup(data, "applName") == Some("a\U{1F600}")
    ensures FieldError(data, ApplName) == None
  {
    ApplNameOutcome(data);
    assert Utf16Length("a\U{1F600}"[1..]) == 2;
  }

  /** The ten fields that are only required. */
  lemma RequiredOnlyFields(f: Field)
    ensures RuleOf(f).Required? <==>
      f in {City, Firm, BusinessType, InstAddr1, InstLocality, Mcc, PanDob, MeAcType, MeName, QrBoombox}
  {
  }

  /** A required-only field is reported exactly when its value is absent or
      empty; any other value, blanks included, passes. */
  lemma RequiredOnlyOutcome(data: Record, f: Field)
    requires RuleOf(f).Required?
    ensures FieldError(data, f) == if Truthy(Lookup(data, Key(f))) then None else Some(RuleOf(f).message)
  {
  }

  /** A value made only of whitespace is present: no trimming takes place. */
  lemma BlankValuePasses(data: Record, f: Field, v: string)
    requires RuleOf(f).Required?
    requires Lookup(data, Key(f)) == Some(v)
    requires |v| >= 1 && forall i :: 0 <= i < |v| ==> IsJsSpace(v[i])
    ensures FieldError(data, f) == None
  {
    RequiredOnlyOutcome(data, f);
  }

  /** `meName` is required and nothing more. */
  lemma AccountHolderNameUnchecked(data: Record)
    ensures FieldError(data, MeName) == if Truthy(Lookup(data, "meName")) then None else Some(AccountHolderRequired)
  {
    RequiredOnlyOutcome(data, MeName);
  }

  /** The six fields tested against a pattern, with their patterns. */
  lemma PatternFields(f: Field)
    ensures RuleOf(f).RequiredFormat? <==> f in {ContactPerson, Mobile, InstPincode, Pan, Melfsc, MeAcNo}
    ensures f == ContactPerson ==> RuleOf(f).format == NameFormat
    ensures f == Mobile ==> RuleOf(f).format == MobileFormat
    ensures f == InstPincode ==> RuleOf(f).format == PincodeFormat
    ensures f == Pan ==> RuleOf(f).format == PanFormat
    ensures f == Melfsc ==> RuleOf(f).format == IfscFormat
    ensures f == MeAcNo ==> RuleOf(f).format == AccountNumberFormat
  {
  }

  /** A pattern field with an absent or empty value gets the "required"
      message and never the format message; a present value gets the format
      message exactly when the field's regular expression does not match it. */
  lemma PatternFieldOutcome(data: Record, f: Field)
    requires RuleOf(f).RequiredFormat?
    ensures var v := Lookup(data, Key(f));
      FieldError(data, f) ==
        if !Truthy(v) then Some(RuleOf(f).requiredMessage)
        else if Matches(PatternOf(RuleOf(f).format), v.value) then None
        else Some(RuleOf(f).formatMessage)
    ensures Text(RuleOf(f).requiredMessage) != Text(RuleOf(f).formatMessage)
  {
    var v := Lookup(data, Key(f));
    if Truthy(v) {
      AcceptsIsPatternMatch(RuleOf(f).format, v.value);
    }
  }

  /** `contactPerson`: one or more ASCII letters or JavaScript whitespace (`\s`). */
  lemma ContactPersonOutcome(data: Record)
    ensures FieldError(data, ContactPerson) ==
      if !Truthy(Lookup(data, "contactPerson")) then Some(ContactPersonRequired)
      else if IsContactName(data["contactPerson"]) then None
      else Some(ContactPersonLettersOnly)
  {
    assert Key(ContactPerson) == "contactPerson";
  }

  /** A contact name of whitespace alone is present and matches `[a-zA-Z\s]+`. */
  lemma BlankContactPersonPasses(data: Record, v: string)
    requires Lookup(data, "contactPerson") == Some(v)
    requires |v| >= 1 && forall i :: 0 <= i < |v| ==> IsJsSpace(v[i])
    ensures FieldError(data, ContactPerson) == None
  {
    ContactPersonOutcome(data);
  }

  /** `mobile`: present, and exactly ten ASCII digits. */
  lemma MobileOutcome(data: Record)
    ensures FieldError(data, Mobile) ==
      if !Truthy(Lookup(data, "mobile")) then Some(MobileRequired)
      else if |data["mobile"]| == 10 && AllDigits(data["mobile"]) then None
      else Some(MobileTenDigits)
  {
    assert Key(Mobile) == "mobile";
  }

  /** `instPincode`: exactly six ASCII digits. */
  lemma PincodeOutcome(data: Record)
    ensures FieldError(data, InstPincode) ==
      if !Truthy(Lookup(data, "instPincode")) then Some(PincodeRequired)
      else if |data["instPincode"]| == 6 && AllDigits(data["instPincode"]) then None
      else Some(PincodeSixDigits)
  {
    assert Key(InstPincode) == "instPincode";
  }

  /** `pan`: five capitals, four digits, one capital. */
  lemma PanOutcome(data: Record)
    ensures FieldError(data, Pan) ==
      if !Truthy(Lookup(data, "pan")) then Some(PanRequired)
      else if IsPan(data["pan"]) then None
      else Some(PanInvalid)
  {
    assert Key(Pan) == "pan";
  }

  /** `melfsc`: four capitals, a zero, six capitals or digits. */
  lemma IfscOutcome(data: Record)
    ensures FieldError(data, Melfsc) ==
      if !Truthy(Lookup(data, "melfsc")) then Some(IfscRequired)
      else if IsIfsc(data["melfsc"]) then None
      else Some(IfscInvalid)
  {
    assert Key(Melfsc) == "melfsc";
  }

  /** `meAcNo`: ten to eighteen ASCII digits. */
  lemma AccountNumberOutcome(data: Record)
    ensures FieldError(data, MeAcNo) ==
      if !Truthy(Lookup(data, "meAcNo")) then Some(AccountNumberRequired)
      else if 10 <= |data["meAcNo"]| <= 18 && AllDigits(data["meAcNo"]) then None
      else Some(AccountNumberDigits)
  {
    assert Key(MeAcNo) == "meAcNo";
  }

  // ---------------------------------------------------------------------------
  // The patterns on sample values

  lemma MobileSamples()
    ensures IsMobile("9876543210")
    ensures !IsMobile("987654321") && !IsMobile("98765432100")
    ensures !IsMobile("98765 4321") && !IsMobile("9876543210\n")
  {
    assert "98765 4321"[5] == ' ';
  }

  lemma PincodeSamples()
    ensures IsPincode("560001")
    ensures !IsPincode("56001") && !IsPincode("5600011") && !IsPincode("56OO01")
  {
    assert "56OO01"[2] == 'O';
  }

  lemma PanSamples()
    ensures IsPan("RTGHP2345G") && IsPan("ABCDE1234F")
    ensures !IsPan("abcde1234f") && !IsPan("ABCDE1234") && !IsPan("ABCD12345F")
  {
    assert "abcde1234f"[0] == 'a';
    assert "ABCD12345F"[4] == '1';
  }

  lemma IfscSamples()
    ensures IsIfsc("SBIN0001234")
    ensures !IsIfsc("SBIN1001234") && !IsIfsc("sbin0001234") && !IsIfsc("SBIN000123")
  {
    assert "sbin0001234"[0] == 's';
  }

  /** The example inside the IFSC format message has ten characters, one
      short of what the pattern demands, so the pattern rejects it. */
  lemma IfscMessageExampleRejected()
    ensures !IsIfsc("SBIB001458")
    ensures !Matches(IfscPattern, "SBIB001458")
  {
    IfscIsPattern("SBIB001458");
  }

  lemma AccountNumberSamples()
    ensures IsAccountNumber("1234567890") && IsAccountNumber("123456789012345678")
    ensures !IsAccountNumber("123456789") && !IsAccountNumber("1234567890123456789")
    ensures !IsAccountNumber("12345-67890")
  {
    assert "12345-67890"[5] == '-';
  }

  lemma ContactNameSamples()
    ensures IsContactName("Ravi Kumar") && IsContactName("   ") && IsContactName("Ravi\tKumar")
    ensures !IsContactName("") && !IsContactName("Ravi2") && !IsContactName("R. Kumar")
  {
    assert "Ravi2"[4] == '2';
    assert "R. Kumar"[1] == '.';
  }

  // ---------------------------------------------------------------------------
  // The result as a whole

  /** Changing one field's value changes no other field's entry. */
  lemma UpdateTouchesOneField(data: Record, f: Field, value: string, g: Field)
    requires g != f
    ensures Reported(data[Key(f) := value], Key(g)) == Reported(data, Key(g))
  {
    KeyInjective(f, g);
    ReportedIsFieldError(data, g);
    ReportedIsFieldError(data[Key(f) := value], g);
    assert Lookup(data[Key(f) := value], Key(g)) == Lookup(data, Key(g));
  }

  /** A field's entry depends on that field's value alone. */
  lemma OwnValueOnly(d1: Record, d2: Record, f: Field)
    requires Lookup(d1, Key(f)) == Lookup(d2, Key(f))
    ensures Reported(d1, Key(f)) == Reported(d2, Key(f))
  {
    ReportedIsFieldError(d1, f);
    ReportedIsFieldError(d2, f);
  }

  /** A key the validator does not check never appears in its result, and
      its value, whatever it is, changes nothing. */
  lemma UncheckedKeyIgnored(data: Record, k: string, value: string)
    requires FieldNamed(k) == None
    ensures Reported(data, k) == None
    ensures Validate(data[k := value]) == Validate(data)
  {
    forall f
      ensures FieldError(data[k := value], f) == FieldError(data, f)
    {
      KeyNamesField(f);
      assert Key(f) != k;
      assert Lookup(data[k := value], Key(f)) == Lookup(data, Key(f));
    }
  }

  /** The form's other keys are not checked. */
  lemma FormExtrasUnchecked()
    ensures FieldNamed("applicationId") == None && FieldNamed("agentId") == None
    ensures FieldNamed("status") == None && FieldNamed("dba") == None
  {
  }

  lemma FormAddressExtrasUnchecked()
    ensures FieldNamed("instAddr2") == None && FieldNamed("instAddr3") == None
  {
  }

  lemma FormDocumentPathsUnchecked()
    ensures FieldNamed("docPath") == None && FieldNamed("panPath") == None
    ensures FieldNamed("aadhaarPath") == None && FieldNamed("bankStatementPath") == None
    ensures FieldNamed("shopPhotoPath") == None
  {
  }

  /** The result is empty exactly when every checked field passes. */
  lemma NoErrorsIffAllPass(data: Record)
    ensures ErrorObject(Validate(data)) == map[] <==> forall f :: FieldError(data, f).None?
  {
    var obj := ErrorObject(Validate(data));
    if obj == map[] {
      forall f ensures FieldError(data, f).None? {
        assert Key(f) !in obj;
      }
    } else {
      var k :| k in obj;
      var f := FieldNamed(k).value;
      assert Key(f) in obj;
    }
  }

  /** A form whose checked fields are all absent or empty is reported in
      full, each field with its "required" message. */
  lemma BlankFormReportsEveryField(data: Record, f: Field)
    requires forall g :: !Truthy(Lookup(data, Key(g)))
    ensures Reported(data, Key(f)) == Some(Text(MissingMessage(RuleOf(f))))
  {
    ReportedIsFieldError(data, f);
  }
}
