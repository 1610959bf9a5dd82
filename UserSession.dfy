/** UserSession.swift: the free-note quota and the PRO flag, both persisted in the user
    defaults, with the change-only PRO event stream. */
module Session {

  /** Which of the two callbacks `guardCanCreateNote` invokes. */
  datatype GuardCall = OnAllowed | OnBlocked

  /** The limit `init` derives from the stored integer (0 when nothing is stored). */
  function InitialLimit(stored: int): (r: int)
    ensures r >= 1
    ensures stored > 0 ==> r == stored
    ensures stored <= 0 ==> r == 3
  {
    if stored > 0 then stored else 3
  }

  /** `max(1, newValue)`: the smallest limit that is at least one and at least what was
      asked for. */
  function ClampedLimit(v: int): (r: int)
    ensures r >= 1 && r >= v
    ensures r == v || r == 1
  {
    if v >= 1 then v else 1
  }

  /** A clamped limit that was persisted is read back unchanged at the next launch. */
  lemma ClampedLimitSurvivesRelaunch(v: int)
    ensures InitialLimit(ClampedLimit(v)) == ClampedLimit(v)
  {
  }

  /** Consecutive events differ: every event reports a real change of `isPro`. */
  ghost predicate Alternating(events: seq<bool>) {
    forall i :: 0 < i < |events| ==> events[i] != events[i - 1]
  }

  class UserSession {
    var isPro: bool
    var freeNoteLimit: int
    /** The user defaults entries `isProUser` and `freeNoteLimit`. */
    var storedIsPro: bool
    var storedLimit: int
    /** Every value `proStatusDidChangeSubject` has sent, oldest first. */
    var proChanges: seq<bool>

    /** The limit is at least one, and the last event sent is the current PRO status. */
    ghost predicate Valid()
      reads this
    {
      freeNoteLimit >= 1 &&
      (proChanges != [] ==> proChanges[|proChanges| - 1] == isPro) &&
      Alternating(proChanges)
    }

    /** `init`: the stored values are read; property observers do not run during
        initialisation, so nothing is written back and nothing is sent. */
    constructor (storedIsPro: bool, storedLimit: int)
      ensures Valid()
      ensures isPro == storedIsPro && freeNoteLimit == InitialLimit(storedLimit)
      ensures this.storedIsPro == storedIsPro && this.storedLimit == storedLimit
      ensures proChanges == []
    {
      isPro := storedIsPro;
      freeNoteLimit := InitialLimit(storedLimit);
      this.storedIsPro := storedIsPro;
      this.storedLimit := storedLimit;
      proChanges := [];
    }

    /** `canCreateNote(currentCount:)`. */
    function CanCreateNote(currentCount: int): bool
      reads this
    {
      isPro || currentCount < freeNoteLimit
    }

    /** `guardCanCreateNote`: exactly one callback is invoked, and it is `onAllowed`
        precisely when a note may be created. */
    function GuardCanCreateNote(currentCount: int): (call: GuardCall)
      reads this
      ensures call == OnAllowed <==> CanCreateNote(currentCount)
      ensures call == OnBlocked <==> !CanCreateNote(currentCount)
    {
      if CanCreateNote(currentCount) then OnAllowed else OnBlocked
    }

    /** Assigning `isPro`, with its observer: the value is always persisted, and an
        event is sent only when it differs from the old value. */
    method SetIsPro(value: bool)
      requires Valid()
      modifies this
      ensures Valid()
      ensures isPro == value && storedIsPro == value
      ensures proChanges == old(proChanges) + (if value != old(isPro) then [value] else [])
      ensures freeNoteLimit == old(freeNoteLimit) && storedLimit == old(storedLimit)
    {
      var oldValue := isPro;
      isPro := value;
      storedIsPro := isPro;
      if isPro != oldValue {
        proChanges := proChanges + [isPro];
      }
    }

    /** `setPro(_:)`. */
    method SetPro(value: bool)
      requires Valid()
      modifies this
      ensures Valid()
      ensures isPro == value && storedIsPro == value
      ensures proChanges == old(proChanges) + (if value != old(isPro) then [value] else [])
      ensures freeNoteLimit == old(freeNoteLimit) && storedLimit == old(storedLimit)
    {
      SetIsPro(value);
    }

    /** `updateFreeNoteLimit(to:)`: the clamped value becomes the limit and is
        persisted. */
    method UpdateFreeNoteLimit(newValue: int)
      requires Valid()
      modifies this
      ensures Valid()
      ensures freeNoteLimit == ClampedLimit(newValue) && storedLimit == freeNoteLimit
      ensures isPro == old(isPro) && storedIsPro == old(storedIsPro)
      ensures proChanges == old(proChanges)
    {
      freeNoteLimit := ClampedLimit(newValue);
      storedLimit := freeNoteLimit;
    }
  }

  /** A free user may create a note exactly while below the limit; a PRO user
      always may. */
  lemma QuotaRule(s: UserSession, currentCount: int)
    ensures !s.isPro ==> (s.CanCreateNote(currentCount) <==> currentCount < s.freeNoteLimit)
    ensures s.isPro ==> s.CanCreateNote(currentCount)
  {
  }

  /** The limit is at least one, so the first note can always be created. */
  lemma FirstNoteAllowed(s: UserSession)
    requires s.Valid()
    ensures s.CanCreateNote(0)
  {
  }

  /** Deleting notes never takes the permission away. */
  lemma QuotaMonotone(s: UserSession, fewer: int, more: int)
    requires fewer <= more
    ensures s.CanCreateNote(more) ==> s.CanCreateNote(fewer)
  {
  }
}
