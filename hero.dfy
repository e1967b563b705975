/**
 * The hero section's modal flags (src/components/landing/Hero.tsx): the
 * "Get Early Access" modal, and the timed modal a first-time visitor sees
 * 5000 ms after the page mounts, remembered in `localStorage`.
 *
 * The mount effect reads the key `hasSeenEarlyModal` but, when the timer
 * fires, writes the key `hasSeenEarlyAccessModal`. The component below
 * takes the key it writes as a parameter: the page uses `SeenWrittenKey`;
 * writing `SeenReadKey` instead is the evident intent.
 */
module HeroSection {
  import opened Wrappers
  import opened JsValues
  import opened Browser

  const SeenReadKey := "hasSeenEarlyModal"
  const SeenWrittenKey := "hasSeenEarlyAccessModal"

  /** The mount effect schedules the timed modal when the read key holds nothing truthy. */
  function SchedulesTimedModal(entries: map<string, string>): (scheduled: bool)
    ensures SeenReadKey !in entries ==> scheduled
    ensures SeenReadKey in entries ==> (scheduled <==> entries[SeenReadKey] == "")
  {
    !TruthyString(Lookup(entries, SeenReadKey))
  }

  /** What the timer writes to storage, under the given key. */
  function MarkSeen(entries: map<string, string>, key: string): (r: map<string, string>)
    ensures r.Keys == entries.Keys + {key}
    ensures r[key] == "true"
    ensures forall k :: k in entries && k != key ==> r[k] == entries[k]
  {
    entries[key := "true"]
  }

  /**
   * As written: after the timed modal has been shown and marked, the next mount
   * still finds the read key unset and schedules the modal again, on every
   * later visit.
   */
  lemma ModalReopensAfterBeingSeen(entries: map<string, string>)
    requires SchedulesTimedModal(entries)
    ensures SchedulesTimedModal(MarkSeen(entries, SeenWrittenKey))
  {
    assert SeenReadKey != SeenWrittenKey;
  }

  /** With the key it reads also being the key it writes, a visitor who has seen the modal never gets it again. */
  lemma CorrectedModalShownOnce(entries: map<string, string>)
    ensures !SchedulesTimedModal(MarkSeen(entries, SeenReadKey))
  {
  }

  /** What each visit sees, for `visits` visits that each wait out the timer. */
  function VisitsSchedule(entries: map<string, string>, key: string, visits: nat): (r: seq<bool>)
    ensures |r| == visits
    decreases visits
  {
    if visits == 0 then []
    else
      var scheduled := SchedulesTimedModal(entries);
      var next := if scheduled then MarkSeen(entries, key) else entries;
      [scheduled] + VisitsSchedule(next, key, visits - 1)
  }

  /** As written, a first-time visitor gets the timed modal on every one of their visits. */
  lemma {:induction false} AsWrittenEveryVisit(entries: map<string, string>, visits: nat)
    requires SchedulesTimedModal(entries)
    ensures forall i :: 0 <= i < visits ==> VisitsSchedule(entries, SeenWrittenKey, visits)[i]
    decreases visits
  {
    if visits > 0 {
      ModalReopensAfterBeingSeen(entries);
      AsWrittenEveryVisit(MarkSeen(entries, SeenWrittenKey), visits - 1);
    }
  }

  /** Corrected, a first-time visitor gets the timed modal on the first visit only. */
  lemma {:induction false} CorrectedFirstVisitOnly(entries: map<string, string>, visits: nat)
    requires SchedulesTimedModal(entries)
    ensures forall i :: 0 <= i < visits ==> (VisitsSchedule(entries, SeenReadKey, visits)[i] <==> i == 0)
  {
    if visits > 0 {
      var next := MarkSeen(entries, SeenReadKey);
      CorrectedModalShownOnce(entries);
      NeverAgain(next, SeenReadKey, visits - 1);
    }
  }

  /** Once the read key holds something truthy, no later visit schedules the modal. */
  lemma {:induction false} NeverAgain(entries: map<string, string>, key: string, visits: nat)
    requires !SchedulesTimedModal(entries)
    ensures forall i :: 0 <= i < visits ==> !VisitsSchedule(entries, key, visits)[i]
    decreases visits
  {
    if visits > 0 {
      NeverAgain(entries, key, visits - 1);
    }
  }

  class Hero {
    const storage: LocalStorage
    /** The key the timer writes. */
    const seenKey: string
    var isModalOpen: bool
    var isTimedModalOpen: bool
    /** The 5000 ms timer is scheduled and has neither fired nor been cleared. */
    var timerPending: bool

    constructor (storage: LocalStorage, seenKey: string)
      ensures this.storage == storage && this.seenKey == seenKey
      ensures !isModalOpen && !isTimedModalOpen && !timerPending
    {
      this.storage := storage;
      this.seenKey := seenKey;
      isModalOpen, isTimedModalOpen, timerPending := false, false, false;
    }

    /** The mount effect: schedule the timer only when the read key is unset; nothing is written yet. */
    method Mount()
      modifies this
      ensures timerPending == SchedulesTimedModal(storage.entries)
      ensures isModalOpen == old(isModalOpen) && isTimedModalOpen == old(isTimedModalOpen)
    {
      var hasSeen := storage.GetItem(SeenReadKey);
      if !TruthyString(hasSeen) {
        timerPending := true;
      } else {
        timerPending := false;
      }
    }

    /** The timer fires: the timed modal opens and the seen flag is written. */
    method TimerFires()
      requires timerPending
      modifies this, storage
      ensures isTimedModalOpen && !timerPending
      ensures isModalOpen == old(isModalOpen)
      ensures storage.entries == MarkSeen(old(storage.entries), seenKey)
    {
      isTimedModalOpen := true;
      storage.SetItem(seenKey, "true");
      timerPending := false;
    }

    /** Unmounting clears a pending timer: the modal stays as it is and nothing is written. */
    method Unmount()
      modifies this
      ensures !timerPending
      ensures isModalOpen == old(isModalOpen) && isTimedModalOpen == old(isTimedModalOpen)
    {
      timerPending := false;
    }

    /** "Get Early Access". */
    method OpenEarlyAccess()
      modifies this
      ensures isModalOpen
      ensures isTimedModalOpen == old(isTimedModalOpen) && timerPending == old(timerPending)
    {
      isModalOpen := true;
    }

    /** The early-access modal's close handler. */
    method CloseModal()
      modifies this
      ensures !isModalOpen
      ensures isTimedModalOpen == old(isTimedModalOpen) && timerPending == old(timerPending)
    {
      isModalOpen := false;
    }

    /** The timed modal's close handler. */
    method CloseTimedModal()
      modifies this
      ensures !isTimedModalOpen
      ensures isModalOpen == old(isModalOpen) && timerPending == old(timerPending)
    {
      isTimedModalOpen := false;
    }
  }

  /** Two visits to the page as written, on storage where nothing has been remembered yet: both schedule the timed modal. */
  method TwoVisitsAsWritten() returns (firstOpened: bool, secondScheduled: bool)
    ensures firstOpened && secondScheduled
  {
    var storage := new LocalStorage(map[]);
    var first := new Hero(storage, SeenWrittenKey);
    first.Mount();
    first.TimerFires();
    firstOpened := first.isTimedModalOpen;
    var second := new Hero(storage, SeenWrittenKey);
    second.Mount();
    ModalReopensAfterBeingSeen(map[]);
    secondScheduled := second.timerPending;
  }

  /** Leaving before the timer fires: the modal never opens and storage is untouched. */
  method LeaveEarly(initial: map<string, string>) returns (modalShown: bool, stored: map<string, string>)
    ensures !modalShown && stored == initial
  {
    var storage := new LocalStorage(initial);
    var hero := new Hero(storage, SeenWrittenKey);
    hero.Mount();
    hero.Unmount();
    modalShown := hero.isTimedModalOpen;
    stored := storage.entries;
  }
}
