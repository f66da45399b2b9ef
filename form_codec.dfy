/** The conversions between stored profile values and the text fields of the
    onboarding wizard and the profile form: optional text becomes null when
    empty, and a list is edited as one comma-separated text. */
module FormCodec {
  import opened Wrappers
  import opened Strings

  /** An optional text field is saved as null when it is empty. */
  function NullIfEmpty(text: string): Option<string>
  {
    if text == "" then None else Some(text)
  }

  /** A stored optional text fills its field, null giving the empty text. */
  function EmptyIfNull(value: Option<string>): string
  {
    value.GetOr("")
  }

  /** Stored text round-trips through a form field: null comes back as null
      and a non-empty value as itself (an empty stored value becomes null). */
  lemma OptionalTextRoundTrip(value: Option<string>)
    requires value != Some("")
    ensures NullIfEmpty(EmptyIfNull(value)) == value
  {
  }

  /** Each piece, trimmed. */
  function TrimAll(pieces: seq<string>): seq<string>
  {
    seq(|pieces|, i requires 0 <= i < |pieces| => Trim(pieces[i]))
  }

  /** A list field is split at every comma and each piece trimmed; the
      empty text gives the empty list. */
  function ParseList(text: string): seq<string> {
    if text == "" then [] else TrimAll(Split(text, ','))
  }

  /** A stored list fills its field joined with ", "; null gives the empty
      text. */
  function JoinList(list: Option<seq<string>>): string {
    match list
    case None => ""
    case Some(xs) => Join(xs, ", ")
  }

  /** "" parses to the empty list; any other text to one trimmed,
      comma-free entry more than it has commas. */
  lemma ParseListShape(text: string)
    ensures text == "" ==> ParseList(text) == []
    ensures text != "" ==> |ParseList(text)| == Count(text, ',') + 1
    ensures forall i :: 0 <= i < |ParseList(text)| ==>
      Trimmed(ParseList(text)[i]) && ',' !in ParseList(text)[i]
  {
    if text != "" {
      var pieces := Split(text, ',');
      SplitPieces(text, ',');
      forall i | 0 <= i < |pieces| ensures Trimmed(Trim(pieces[i])) && ',' !in Trim(pieces[i]) {
        TrimSpec(pieces[i]);
        var a, b :| 0 <= a <= b <= |pieces[i]| && Trim(pieces[i]) == pieces[i][a..b];
        assert forall ch :: ch in pieces[i][a..b] ==> ch in pieces[i];
      }
    }
  }

  /** trim ignores a leading space. */
  lemma TrimLeadingSpaceIgnored(s: string)
    ensures Trim(" " + s) == Trim(s)
  {
    assert (" " + s)[1..] == s;
    assert TrimStart(" " + s) == TrimStart(s);
  }

  lemma JoinNonEmpty(xs: seq<string>)
    requires xs != [] && xs != [""]
    ensures Join(xs, ", ") != ""
  {
    if |xs| > 1 {
      assert |Join(xs, ", ")| >= 2;
    }
  }

  lemma JoinFirst(xs: seq<string>)
    requires |xs| >= 2
    ensures Join(xs, ", ") == xs[0] + [','] + (" " + Join(xs[1..], ", "))
  {
  }

  lemma SplitLeadingChar(ch: char, s: string, c: char)
    requires ch != c
    ensures Split([ch] + s, c) == [[ch] + Split(s, c)[0]] + Split(s, c)[1..]
  {
    assert ([ch] + s)[1..] == s;
  }

  lemma TrimAllCons(a: string, t: seq<string>)
    ensures TrimAll([a] + t) == [Trim(a)] + TrimAll(t)
  {
    var l, r := TrimAll([a] + t), [Trim(a)] + TrimAll(t);
    forall i | 0 <= i < |l| ensures l[i] == r[i] {
      if i > 0 {
        assert ([a] + t)[i] == t[i - 1];
      }
    }
  }

  /** Splitting a ", "-joined list of two or more entries at its commas:
      the first entry, then the rest's pieces with the space kept on the first. */
  lemma SplitOfJoinStep(xs: seq<string>)
    requires |xs| >= 2 && ',' !in xs[0]
    ensures var s := Split(Join(xs[1..], ", "), ',');
      Split(Join(xs, ", "), ',') == [xs[0]] + ([" " + s[0]] + s[1..])
  {
    var rest := Join(xs[1..], ", ");
    JoinFirst(xs);
    SplitAtFirst(xs[0], ',', " " + rest);
    SplitLeadingChar(' ', rest, ',');
  }

  /** Trimming the pieces ignores the space kept on the second piece. */
  lemma TrimAllStep(a: string, s: seq<string>)
    requires s != []
    ensures TrimAll([a] + ([" " + s[0]] + s[1..])) == [Trim(a)] + TrimAll(s)
  {
    TrimLeadingSpaceIgnored(s[0]);
    TrimAllCons(" " + s[0], s[1..]);
    TrimAllCons(s[0], s[1..]);
    assert s == [s[0]] + s[1..];
    TrimAllCons(a, [" " + s[0]] + s[1..]);
  }

  /** Splitting a ", "-joined list at its commas and trimming the pieces gives
      back the list, when no entry has a comma or surrounding whitespace. */
  lemma {:induction false} TrimmedSplitOfJoin(xs: seq<string>)
    requires xs != []
    requires forall i :: 0 <= i < |xs| ==> ',' !in xs[i] && Trimmed(xs[i])
    ensures TrimAll(Split(Join(xs, ", "), ',')) == xs
  {
    TrimOfTrimmed(xs[0]);
    if |xs| == 1 {
      SplitWithoutSeparator(xs[0], ',');
    } else {
      var s := Split(Join(xs[1..], ", "), ',');
      TrimmedSplitOfJoin(xs[1..]);
      SplitOfJoinStep(xs);
      TrimAllStep(xs[0], s);
      calc {
        TrimAll(Split(Join(xs, ", "), ','));
        TrimAll([xs[0]] + ([" " + s[0]] + s[1..]));
        [Trim(xs[0])] + TrimAll(s);
        [xs[0]] + xs[1..];
        xs;
      }
    }
  }

  /** The profile form shows a stored list joined with ", " and stores the
      parsed text on submit; unedited, the list comes back unchanged when its
      entries are trimmed and comma-free and it is not the one-entry list [""]. */
  lemma ListFieldRoundTrip(xs: seq<string>)
    requires xs != [""]
    requires forall i :: 0 <= i < |xs| ==> ',' !in xs[i] && Trimmed(xs[i])
    ensures ParseList(JoinList(Some(xs))) == xs
  {
    if xs != [] {
      JoinNonEmpty(xs);
      TrimmedSplitOfJoin(xs);
    }
  }

  /** The one list the field cannot carry: [""] shows as "" and comes back as []. */
  lemma SingleEmptyEntryIsLost()
    ensures ParseList(JoinList(Some([""]))) == []
  {
  }

  // ---------------------------------------------------------------------------
  // The whole profile

  /** A profiles row. The two measurements are carried as the text of the
      number. */
  datatype Profile = Profile(
    fullName: string,
    dateOfBirth: Option<string>,
    gender: Option<string>,
    heightCm: Option<string>,
    weightKg: Option<string>,
    phone: Option<string>,
    emergencyName: Option<string>,
    emergencyPhone: Option<string>,
    medicalConditions: Option<seq<string>>,
    allergies: Option<seq<string>>,
    medications: Option<seq<string>>)

  /** The text fields the onboarding wizard and the profile form edit. */
  datatype FormText = FormText(
    fullName: string,
    dateOfBirth: string,
    gender: string,
    heightCm: string,
    weightKg: string,
    phone: string,
    emergencyName: string,
    emergencyPhone: string,
    conditions: string,
    allergies: string,
    medications: string)

  const BlankForm := FormText("", "", "", "", "", "", "", "", "", "", "")

  /** The fields filled from a stored profile when the profile form opens. */
  function FormOf(p: Profile): FormText {
    FormText(p.fullName, EmptyIfNull(p.dateOfBirth), EmptyIfNull(p.gender), EmptyIfNull(p.heightCm),
             EmptyIfNull(p.weightKg), EmptyIfNull(p.phone), EmptyIfNull(p.emergencyName),
             EmptyIfNull(p.emergencyPhone), JoinList(p.medicalConditions), JoinList(p.allergies),
             JoinList(p.medications))
  }

  /** The profile both forms submit for their fields. */
  function ProfileOf(f: FormText): Profile {
    Profile(f.fullName, NullIfEmpty(f.dateOfBirth), NullIfEmpty(f.gender), NullIfEmpty(f.heightCm),
            NullIfEmpty(f.weightKg), NullIfEmpty(f.phone), NullIfEmpty(f.emergencyName),
            NullIfEmpty(f.emergencyPhone), Some(ParseList(f.conditions)), Some(ParseList(f.allergies)),
            Some(ParseList(f.medications)))
  }

  /** A list the list field carries unchanged. */
  predicate Carried(list: Option<seq<string>>) {
    && list.Some? && list.value != [""]
    && forall i :: 0 <= i < |list.value| ==> ',' !in list.value[i] && Trimmed(list.value[i])
  }

  /** Every submitted profile has its lists present and no empty optional text. */
  lemma SubmittedShape(f: FormText)
    ensures var p := ProfileOf(f);
      && p.medicalConditions.Some? && p.allergies.Some? && p.medications.Some?
      && p.dateOfBirth != Some("") && p.gender != Some("") && p.phone != Some("")
      && p.heightCm != Some("") && p.weightKg != Some("")
      && p.emergencyName != Some("") && p.emergencyPhone != Some("")
  {
  }

  /** Opening the profile form and saving it unedited stores the profile it
      was opened with, when no optional text is empty and every list is
      present and carried unchanged. */
  lemma UneditedProfileRoundTrip(p: Profile)
    requires p.dateOfBirth != Some("") && p.gender != Some("") && p.heightCm != Some("")
    requires p.weightKg != Some("") && p.phone != Some("") && p.emergencyName != Some("")
    requires p.emergencyPhone != Some("")
    requires Carried(p.medicalConditions) && Carried(p.allergies) && Carried(p.medications)
    ensures ProfileOf(FormOf(p)) == p
  {
    ListFieldRoundTrip(p.medicalConditions.value);
    ListFieldRoundTrip(p.allergies.value);
    ListFieldRoundTrip(p.medications.value);
  }

  /** A null list opens as "" and is saved as the empty list. */
  lemma NullListSavedEmpty(p: Profile)
    requires p.medicalConditions.None?
    ensures ProfileOf(FormOf(p)).medicalConditions == Some([])
  {
  }
}
