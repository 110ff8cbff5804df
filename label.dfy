/** The name test of the summing loop in main: which activities count as "Desk Treadmill". */
module DeskLabel {
  import opened Strings
  import opened Fetcher

  const Label: string := "Desk Treadmill"

  /** strings.EqualFold(s, "Desk Treadmill"). */
  predicate MatchesLabel(s: string) {
    assert IsAscii(Label);
    EqualFoldAscii(s, Label)
  }

  /** strings.EqualFold(strings.TrimSpace(a.Name), "Desk Treadmill"). */
  predicate IsDeskTreadmill(a: Activity) {
    MatchesLabel(TrimSpace(a.name))
  }

  lemma LabelMatchesItself()
    ensures IsDeskTreadmill(Activity(1, "Desk Treadmill", 1000.0))
  {
    assert !IsSpace('D') && !IsSpace('l');
    assert TrimSpace(Label) == Label;
  }

  lemma FoldsLowerCase()
    ensures EqualFoldAscii("desk treadmill", Label)
  {
  }

  /** Trimming and case folding: a lower-case name with a trailing space matches. */
  lemma LabelMatchesTrimmedLowerCase()
    ensures IsDeskTreadmill(Activity(2, "desk treadmill ", 500.0))
  {
    assert "desk treadmill " == "desk treadmill" + " ";
    assert !IsSpace('d') && !IsSpace('l');
    TrimSpaceKeeps("desk treadmill");
    TrimSpaceBlankSuffix("desk treadmill", " ");
    FoldsLowerCase();
  }

  lemma FoldsKelvinSign()
    ensures EqualFoldAscii("Des\U{212A} Treadmill", Label)
  {
  }

  /** The Kelvin sign folds onto k, so this name matches too. */
  lemma LabelMatchesKelvinSign()
    ensures IsDeskTreadmill(Activity(4, "Des\U{212A} Treadmill", 0.0))
  {
    assert !IsSpace('D') && !IsSpace('l');
    TrimSpaceKeeps("Des\U{212A} Treadmill");
    FoldsKelvinSign();
  }

  /** White space around a name never changes whether it matches. */
  lemma DeskTreadmillIgnoresOuterSpace(a: Activity, pre: string, post: string)
    requires IsBlank(pre) && IsBlank(post)
    ensures IsDeskTreadmill(a.(name := pre + a.name + post)) <==> IsDeskTreadmill(a)
  {
    TrimSpaceBlankPrefix(pre, a.name + post);
    TrimSpaceBlankSuffix(a.name, post);
    assert pre + a.name + post == pre + (a.name + post);
  }

  /** Another name does not match. */
  lemma LabelRejectsOtherName()
    ensures !IsDeskTreadmill(Activity(3, "Run", 5000.0))
  {
    assert !IsSpace('R') && !IsSpace('n');
    assert TrimSpace("Run") == "Run";
  }

  /** Inner spaces are not trimmed: a doubled space does not match. */
  lemma LabelRejectsDoubledSpace()
    ensures !IsDeskTreadmill(Activity(5, "Desk  Treadmill", 5000.0))
  {
    assert !IsSpace('D') && !IsSpace('l');
    assert TrimSpace("Desk  Treadmill") == "Desk  Treadmill";
    assert |"Desk  Treadmill"| != |Label|;
  }
}
