/** The employee's activity log: the label shown for an entry's `action_type`, and the fetch
    effect that fills the list. The label is `action_type` with every `_` replaced by a space and
    then every word character that starts a word (`\b\w`) upper-cased. Regular-expression word
    characters are the ASCII letters, the digits and `_`. */
module ActivityLog {
  import opened JsValues

  predicate IsWordChar(c: char) {
    ('a' <= c <= 'z') || ('A' <= c <= 'Z') || ('0' <= c <= '9') || c == '_'
  }

  predicate IsLower(c: char) {
    'a' <= c <= 'z'
  }

  /** Upper-casing one character: a lower-case letter becomes its own capital (32 code points
      lower), every other character is kept, and a word character stays a word character. */
  function Upper(c: char): (u: char)
    ensures IsLower(c) ==> 'A' <= u <= 'Z' && u as int == c as int - 32
    ensures !IsLower(c) ==> u == c
    ensures !IsLower(u)
    ensures IsWordChar(u) == IsWordChar(c)
  {
    if IsLower(c) then (c as int - 32) as char else c
  }

  /** First pass, `replace(/_/g, ' ')`. */
  function SpaceUnderscores(s: string): (t: string)
  {
    if s == [] then []
    else [if s[0] == '_' then ' ' else s[0]] + SpaceUnderscores(s[1..])
  }

  /** Second pass, `replace(/\b\w/g, toUpperCase)`, scanning left to right; `afterWord` says
      whether the previous character was a word character (false at the start). */
  function CapitalizeWords(t: string, afterWord: bool): (r: string)
  {
    if t == [] then []
    else [if IsWordChar(t[0]) && !afterWord then Upper(t[0]) else t[0]]
         + CapitalizeWords(t[1..], IsWordChar(t[0]))
  }

  /** The label shown for an activity: it has the length of `action_type` and no underscore. */
  function Label(actionType: string): (l: string)
    ensures |l| == |actionType|
    ensures '_' !in l
  {
    BothPassesClearUnderscores(actionType);
    CapitalizeWords(SpaceUnderscores(actionType), false)
  }

  /** Whether position `i` of `t` starts a word: a word character at the start of the string or
      after a non-word character. */
  predicate StartsWord(t: string, i: nat)
    requires i < |t|
  {
    IsWordChar(t[i]) && (i == 0 || !IsWordChar(t[i - 1]))
  }

  lemma {:induction false} SpaceUnderscoresAt(s: string)
    ensures |SpaceUnderscores(s)| == |s|
    ensures forall i :: 0 <= i < |s| ==>
      SpaceUnderscores(s)[i] == if s[i] == '_' then ' ' else s[i]
  {
    if s != [] {
      SpaceUnderscoresAt(s[1..]);
    }
  }

  lemma {:induction false} CapitalizeWordsAt(t: string, afterWord: bool)
    ensures |CapitalizeWords(t, afterWord)| == |t|
    ensures forall i :: 0 <= i < |t| ==>
      CapitalizeWords(t, afterWord)[i] ==
        if IsWordChar(t[i]) && (if i == 0 then !afterWord else !IsWordChar(t[i - 1]))
        then Upper(t[i]) else t[i]
  {
    if t != [] {
      CapitalizeWordsAt(t[1..], IsWordChar(t[0]));
      var r := CapitalizeWords(t, afterWord);
      var rest := CapitalizeWords(t[1..], IsWordChar(t[0]));
      assert r == [if IsWordChar(t[0]) && !afterWord then Upper(t[0]) else t[0]] + rest;
      assert |r| == |t|;
      forall i | 0 <= i < |t|
        ensures r[i] ==
          if IsWordChar(t[i]) && (if i == 0 then !afterWord else !IsWordChar(t[i - 1]))
          then Upper(t[i]) else t[i]
      {
        if i > 0 {
          assert r[i] == rest[i - 1];
          assert t[1..][i - 1] == t[i];
          assert i - 1 > 0 ==> t[1..][i - 2] == t[i - 1];
        }
      }
    }
  }

  /** After both passes no underscore is left: the first pass removes them all, and the
      second changes only lower-case letters. */
  lemma BothPassesClearUnderscores(actionType: string)
    ensures |CapitalizeWords(SpaceUnderscores(actionType), false)| == |actionType|
    ensures '_' !in CapitalizeWords(SpaceUnderscores(actionType), false)
  {
    SpaceUnderscoresAt(actionType);
    var t := SpaceUnderscores(actionType);
    CapitalizeWordsAt(t, false);
    var l := CapitalizeWords(t, false);
    forall i | 0 <= i < |l|
      ensures l[i] != '_'
    {
      assert t[i] != '_';
    }
  }

  /** The label, character by character: position `i` holds the underscore-free character of
      `action_type`, upper-cased exactly when it starts a word. Nothing is lower-cased, and a
      letter after a digit is left alone. */
  lemma LabelAt(actionType: string)
    ensures |SpaceUnderscores(actionType)| == |actionType|
    ensures |Label(actionType)| == |actionType|
    ensures forall i :: 0 <= i < |actionType| ==>
      var t := SpaceUnderscores(actionType);
      Label(actionType)[i] == if StartsWord(t, i) then Upper(t[i]) else t[i]
  {
    SpaceUnderscoresAt(actionType);
    CapitalizeWordsAt(SpaceUnderscores(actionType), false);
  }

  /** A character right after a digit keeps its case (an underscore still becomes a space). */
  lemma LetterAfterDigitUntouched(actionType: string, i: nat)
    requires 0 < i < |actionType| && '0' <= actionType[i - 1] <= '9' && actionType[i] != '_'
    ensures |Label(actionType)| == |actionType| && Label(actionType)[i] == actionType[i]
  {
    LabelAt(actionType);
    SpaceUnderscoresAt(actionType);
  }

  lemma {:induction false} SpaceUnderscoresFixes(t: string)
    requires '_' !in t
    ensures SpaceUnderscores(t) == t
  {
    if t != [] {
      SpaceUnderscoresFixes(t[1..]);
    }
  }

  lemma {:induction false} CapitalizeWordsIdempotent(t: string, afterWord: bool)
    ensures CapitalizeWords(CapitalizeWords(t, afterWord), afterWord) == CapitalizeWords(t, afterWord)
  {
    if t != [] {
      var c := t[0];
      var c' := if IsWordChar(c) && !afterWord then Upper(c) else c;
      assert IsWordChar(c') == IsWordChar(c);
      CapitalizeWordsIdempotent(t[1..], IsWordChar(c));
      assert CapitalizeWords(t, afterWord) == [c'] + CapitalizeWords(t[1..], IsWordChar(c));
      var rest := CapitalizeWords(t[1..], IsWordChar(c));
      assert ([c'] + rest)[1..] == rest;
    }
  }

  /** Formatting an already formatted label gives it back unchanged. */
  lemma LabelIdempotent(actionType: string)
    ensures Label(Label(actionType)) == Label(actionType)
  {
    SpaceUnderscoresFixes(Label(actionType));
    CapitalizeWordsIdempotent(SpaceUnderscores(actionType), false);
  }

  /** A row of `activity_logs`; `actionType` may be null. */
  datatype Activity = Activity(id: string, actionType: Option<string>)

  /** What rendering a null `action_type` throws: `.replace` read on null. */
  const NullActionType := "Cannot read properties of null (reading 'replace')"

  /** Rendering the list: one label per activity, in order; the first activity whose
      `action_type` is null makes the whole render throw. */
  function RenderLabels(acts: seq<Activity>): (r: Outcome<seq<string>>)
    ensures r.Ok? <==> forall i :: 0 <= i < |acts| ==> acts[i].actionType.Some?
    ensures r.Ok? ==> |r.value| == |acts|
    ensures r.Ok? ==> forall i :: 0 <= i < |acts| ==>
      r.value[i] == Label(acts[i].actionType.value) && '_' !in r.value[i]
      && |r.value[i]| == |acts[i].actionType.value|
    ensures r.Threw? ==> r.message == NullActionType
  {
    if acts == [] then Ok([])
    else if acts[0].actionType.None? then Threw(NullActionType)
    else
      var rest := RenderLabels(acts[1..]);
      if rest.Threw? then rest
      else Ok([Label(acts[0].actionType.value)] + rest.value)
  }

  class ActivityLogPage {
    var activities: seq<Activity>
    var loading: bool

    constructor ()
      ensures activities == [] && loading
    {
      activities := [];
      loading := true;
    }

    /** The mount effect: `user` is what `getUser` settled to, `query` the activity query for
        that user. Only a signed-in user with a query that did not throw changes the list, and
        loading ends on every path. */
    method FetchActivities(user: Outcome<Option<string>>, query: Outcome<seq<Activity>>)
      modifies this
      ensures !loading
      ensures user.Ok? && user.value.Some? && query.Ok? ==> activities == query.value
      ensures !(user.Ok? && user.value.Some? && query.Ok?) ==> activities == old(activities)
    {
      if user.Ok? && user.value.Some? {
        if query.Ok? {
          activities := query.value;
        }
      }
      loading := false;
    }

    /** The rendered list of the page's activities. */
    function Labels(): Outcome<seq<string>>
      reads this
    {
      RenderLabels(activities)
    }
  }

  /** A fresh page through its mount effect: without a signed-in user the list stays empty, and
      either way loading has ended. */
  method Mount(user: Outcome<Option<string>>, query: Outcome<seq<Activity>>)
    returns (shown: seq<Activity>, stillLoading: bool)
    ensures !stillLoading
    ensures !(user.Ok? && user.value.Some?) ==> shown == []
    ensures user.Ok? && user.value.Some? && query.Ok? ==> shown == query.value
    ensures query.Threw? ==> shown == []
  {
    var page := new ActivityLogPage();
    page.FetchActivities(user, query);
    shown, stillLoading := page.activities, page.loading;
  }
}
