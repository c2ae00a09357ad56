/** The AnnotationInterface component: a review cursor over a fixed list of
    comparison pairs, the preference recorded for the pair under the cursor,
    and the figures derived from them (progress, completion, counts). */
module Annotation {
  import opened Common
  import opened ComparisonWidget

  datatype AnnotationData = AnnotationData(
    id: string,
    prompt: string,
    responseA: string,
    responseB: string,
    preference: Option<Preference>,
    reasoning: Option<string>)

  /** The three demonstration pairs the component starts with, none annotated. */
  function SampleData(): (items: seq<AnnotationData>)
    ensures |items| == 3
    ensures forall i :: 0 <= i < |items| ==> items[i].preference.None? && items[i].reasoning.None?
  {
    [ AnnotationData("1", SamplePrompt1, SampleResponseA1, SampleResponseB1, None, None),
      AnnotationData("2", SamplePrompt2, SampleResponseA2, SampleResponseB2, None, None),
      AnnotationData("3", SamplePrompt3, SampleResponseA3, SampleResponseB3, None, None) ]
  }

  // The texts of the demonstration pairs.
  const SamplePrompt1: string := "Write a professional email to decline a job offer politely."
  const SampleResponseA1: string := "Dear [Hiring Manager],\n\nThank you for offering me the position. After careful consideration, I must decline as I have accepted another opportunity. I appreciate your time and consideration.\n\nBest regards,\n[Your Name]"
  const SampleResponseB1: string := "Hi there,\n\nThanks for the job offer! Unfortunately, I can't take it because I found something better. Hope you understand.\n\nThanks again!"
  const SamplePrompt2: string := "Explain quantum computing in simple terms for a 10-year-old."
  const SampleResponseA2: string := "Quantum computing is like having a magical computer that can try many different solutions to a problem at the same time, instead of trying them one by one like regular computers. It uses special particles called 'qubits' that can be in multiple states simultaneously, making calculations much faster for certain types of problems."
  const SampleResponseB2: string := "Quantum computers use quantum mechanics and superposition to process information using qubits instead of bits. They leverage quantum entanglement and interference to perform parallel computations, offering exponential speedup for specific algorithmic problems through quantum gates and circuits."
  const SamplePrompt3: string := "Write a Python function to check if a string is a palindrome."
  const SampleResponseA3: string := "def is_palindrome(s):\n    s = s.lower().replace(' ', '')\n    return s == s[::-1]\n\n# Example usage:\nprint(is_palindrome('A man a plan a canal Panama'))  # True"
  const SampleResponseB3: string := "def check_palindrome(text):\n    clean_text = ''.join(char.lower() for char in text if char.isalnum())\n    left, right = 0, len(clean_text) - 1\n    \n    while left < right:\n        if clean_text[left] != clean_text[right]:\n            return False\n        left += 1\n        right -= 1\n    \n    return True"

  /** The preference of each item, in order. */
  function PreferencesOf(items: seq<AnnotationData>): (prefs: seq<Option<Preference>>)
    ensures |prefs| == |items|
    ensures forall i :: 0 <= i < |items| ==> prefs[i] == items[i].preference
  {
    seq(|items|, i requires 0 <= i < |items| => items[i].preference)
  }

  /** What `handlePreferenceSelect` writes: slot `i` gets the new preference
      and reasoning (an absent reasoning clears the old one); id and texts stay. */
  function Record(items: seq<AnnotationData>, i: nat, p: Preference, reasoning: Option<string>): (r: seq<AnnotationData>)
    requires i < |items|
    ensures |r| == |items|
    ensures r[i].preference == Some(p) && r[i].reasoning == reasoning
    ensures r[i].id == items[i].id && r[i].prompt == items[i].prompt
    ensures r[i].responseA == items[i].responseA && r[i].responseB == items[i].responseB
    ensures forall j :: 0 <= j < |items| && j != i ==> r[j] == items[j]
  {
    items[i := items[i].(preference := Some(p), reasoning := reasoning)]
  }

  /** Recording counts the slot as annotated and as a vote for `p`; the A, B
      and tie counts still add up to the annotated count. */
  lemma RecordCounts(items: seq<AnnotationData>, i: nat, p: Preference, reasoning: Option<string>)
    requires i < |items|
    ensures var after := PreferencesOf(Record(items, i, p, reasoning));
      && AnnotatedCount(after) == AnnotatedCount(PreferencesOf(items)) + (if items[i].preference.None? then 1 else 0)
      && CountOf(after, p) == CountOf(PreferencesOf(items), p) + (if items[i].preference == Some(p) then 0 else 1)
      && CountOf(after, A) + CountOf(after, B) + CountOf(after, Tie) == AnnotatedCount(after)
  {
    var before := PreferencesOf(items);
    assert PreferencesOf(Record(items, i, p, reasoning)) == before[i := Some(p)];
    CountsAfterRecord(before, i, p);
    CountsSumToAnnotated(before[i := Some(p)]);
  }

  /** The widget's Reset sends `("A", "")`; passed on to `handlePreferenceSelect`
      it marks the pair as preferring A. So pressing Reset never un-annotates
      a pair, and annotates one that had no preference. */
  lemma ResetRecordsPreferenceA(items: seq<AnnotationData>, i: nat)
    requires i < |items|
    ensures var e := Emission(A, "");
      var after := Record(items, i, e.preference, Some(e.reasoning));
      && after[i].preference == Some(A)
      && AnnotatedCount(PreferencesOf(after)) >= AnnotatedCount(PreferencesOf(items))
      && (items[i].preference.None? ==> AnnotatedCount(PreferencesOf(after)) == AnnotatedCount(PreferencesOf(items)) + 1)
  {
    RecordCounts(items, i, A, Some(""));
  }

  // ---------------------------------------------------------------------------
  // The review cursor
  // ---------------------------------------------------------------------------

  /** The navigation buttons: Previous, Next and Skip. */
  datatype Move = Previous | Next | Skip

  /** The cursor after one move over a list of `length` items: `goToPrevious`
      steps back unless at 0; `goToNext` and `skipCurrent` step forward unless
      at the last index. No wrap-around, no error at a boundary. */
  function Navigate(index: nat, length: nat, m: Move): (r: nat)
    ensures index < length ==> r < length
    ensures m == Previous ==> r <= index && (r == index <==> index == 0)
    ensures m != Previous ==> r >= index && (r == index <==> index >= length - 1)
    ensures r - index <= 1 && index - r <= 1
  {
    match m
    case Previous => if index > 0 then index - 1 else index
    case Next => if index < length - 1 then index + 1 else index
    case Skip => if index < length - 1 then index + 1 else index
  }

  /** The cursor after a whole sequence of moves. */
  function Run(index: nat, length: nat, moves: seq<Move>): nat
    decreases moves
  {
    if moves == [] then index else Run(Navigate(index, length, moves[0]), length, moves[1..])
  }

  /** From any valid position (in particular from 0 over a non-empty list),
      no sequence of Previous, Next and Skip leaves `[0, length - 1]`. */
  lemma {:induction false} RunStaysInRange(index: nat, length: nat, moves: seq<Move>)
    requires index < length
    ensures Run(index, length, moves) < length
    decreases moves
  {
    if moves != [] {
      RunStaysInRange(Navigate(index, length, moves[0]), length, moves[1..]);
    }
  }

  /** `k` presses of Next from `index` reach `min(index + k, length - 1)`. */
  lemma {:induction false} RepeatedNext(index: nat, length: nat, k: nat)
    requires index < length
    ensures Run(index, length, seq(k, _ => Next)) == if index + k < length then index + k else length - 1
    decreases k
  {
    var moves := seq(k, _ => Next);
    if k > 0 {
      assert moves[0] == Next;
      assert moves[1..] == seq(k - 1, _ => Next);
      RepeatedNext(Navigate(index, length, Next), length, k - 1);
    }
  }

  /** Next and Previous undo each other away from the boundaries. */
  lemma NextPreviousInverse(index: nat, length: nat)
    requires index < length
    ensures index < length - 1 ==> Navigate(Navigate(index, length, Next), length, Previous) == index
    ensures index > 0 ==> Navigate(Navigate(index, length, Previous), length, Next) == index
  {
  }

  // ---------------------------------------------------------------------------
  // Derived figures
  // ---------------------------------------------------------------------------

  /** `((currentIndex + 1) / annotations.length) * 100`, as an exact ratio. */
  function Progress(index: nat, length: nat): (p: real)
    requires index < length
    ensures 0.0 < p <= 100.0
    ensures p == 100.0 <==> index == length - 1
  {
    Percent(index + 1, length)
  }

  /** `isComplete`: the cursor is on the last pair and that pair has a
      preference, which is to say progress reads 100 and the pair is annotated. */
  function IsComplete(items: seq<AnnotationData>, index: nat): (c: bool)
    requires index < |items|
    ensures c <==> Progress(index, |items|) == 100.0 && items[index].preference.Some?
  {
    index == |items| - 1 && items[index].preference.Some?
  }

  /** Completion shows full progress and at least one annotated pair; it is
      reached by recording any preference while on the last pair. */
  lemma CompleteMeansFullProgress(items: seq<AnnotationData>, index: nat, p: Preference, reasoning: Option<string>)
    requires index < |items|
    ensures IsComplete(items, index) ==> Progress(index, |items|) == 100.0 && AnnotatedCount(PreferencesOf(items)) >= 1
    ensures index == |items| - 1 ==> IsComplete(Record(items, index, p, reasoning), index)
  {
    if IsComplete(items, index) {
      var prefs := PreferencesOf(items);
      assert prefs == prefs[..index] + [prefs[index]];
      AnnotatedCountAppend(prefs[..index], [prefs[index]]);
      assert [prefs[index]][1..] == [];
    }
  }

  /** The AnnotationInterface component's state. */
  class AnnotationInterface {
    var currentIndex: nat
    var annotations: seq<AnnotationData>

    /** The cursor designates a pair. */
    ghost predicate Valid()
      reads this
    {
      currentIndex < |annotations|
    }

    constructor ()
      ensures Valid()
      ensures currentIndex == 0 && annotations == SampleData()
    {
      currentIndex := 0;
      annotations := SampleData();
    }

    /** `handlePreferenceSelect(preference, reasoning?)`, the callback handed
        to the ComparisonPair widget: overwrites the pair under the cursor. */
    method HandlePreferenceSelect(p: Preference, reasoning: Option<string>)
      requires Valid()
      modifies this`annotations
      ensures Valid()
      ensures annotations == Record(old(annotations), currentIndex, p, reasoning)
    {
      var updated := annotations;
      updated := updated[currentIndex := updated[currentIndex].(preference := Some(p), reasoning := reasoning)];
      annotations := updated;
    }

    /** What the parent does with one message from the widget. */
    method Receive(e: Emission)
      requires Valid()
      modifies this`annotations
      ensures Valid()
      ensures annotations == Record(old(annotations), currentIndex, e.preference, Some(e.reasoning))
    {
      HandlePreferenceSelect(e.preference, Some(e.reasoning));
    }

    /** `goToPrevious`. */
    method GoToPrevious()
      requires Valid()
      modifies this`currentIndex
      ensures Valid()
      ensures currentIndex == Navigate(old(currentIndex), |annotations|, Previous)
    {
      if currentIndex > 0 {
        currentIndex := currentIndex - 1;
      }
    }

    /** `goToNext`. */
    method GoToNext()
      requires Valid()
      modifies this`currentIndex
      ensures Valid()
      ensures currentIndex == Navigate(old(currentIndex), |annotations|, Next)
    {
      if currentIndex < |annotations| - 1 {
        currentIndex := currentIndex + 1;
      }
    }

    /** `skipCurrent`: moves exactly like `goToNext`, whether or not the pair
        has a preference. */
    method SkipCurrent()
      requires Valid()
      modifies this`currentIndex
      ensures Valid()
      ensures currentIndex == Navigate(old(currentIndex), |annotations|, Skip)
    {
      if currentIndex < |annotations| - 1 {
        currentIndex := currentIndex + 1;
      }
    }
  }
}
