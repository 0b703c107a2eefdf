/**
 * The meetings page over its fixed list: the counters, the badges of a meeting card and the
 * "Join Video" button.
 */
module Meetings {
  import opened Seqs

  /** A meeting (the fields the page decides on). */
  datatype Meeting = Meeting(id: string, status: string, kind: string, agendaReady: bool, notesCaptured: bool)

  const AllMeetings: seq<Meeting> := [
    Meeting("MTG-001", "scheduled", "video", true, false),
    Meeting("MTG-002", "scheduled", "in-person", true, false),
    Meeting("MTG-003", "completed", "hybrid", true, true)
  ]

  /** A meeting held over video in full or in part. */
  predicate IsVideo(m: Meeting) { m.kind == "video" || m.kind == "hybrid" }

  /** The four counters of the page. */
  datatype Stats = Stats(scheduled: nat, video: nat, agendas: nat, notes: nat)

  function StatsOf(meetings: seq<Meeting>): (s: Stats)
    ensures s.scheduled <= |meetings| && s.video <= |meetings| && s.agendas <= |meetings| && s.notes <= |meetings|
    ensures s.video == |Filter(meetings, (m: Meeting) => IsVideo(m))|
    ensures s.scheduled == |Positions(meetings, (m: Meeting) => m.status == "scheduled")|
    ensures s.video == |Positions(meetings, (m: Meeting) => IsVideo(m))|
    ensures s.agendas == |Positions(meetings, (m: Meeting) => m.agendaReady)|
    ensures s.notes == |Positions(meetings, (m: Meeting) => m.notesCaptured)|
  {
    FilterSame(meetings, (m: Meeting) => m.kind == "video" || m.kind == "hybrid", (m: Meeting) => IsVideo(m));
    FilterCount(meetings, (m: Meeting) => m.status == "scheduled");
    FilterCount(meetings, (m: Meeting) => IsVideo(m));
    FilterCount(meetings, (m: Meeting) => m.agendaReady);
    FilterCount(meetings, (m: Meeting) => m.notesCaptured);
    Stats(|Filter(meetings, (m: Meeting) => m.status == "scheduled")|,
      |Filter(meetings, (m: Meeting) => m.kind == "video" || m.kind == "hybrid")|,
      |Filter(meetings, (m: Meeting) => m.agendaReady)|,
      |Filter(meetings, (m: Meeting) => m.notesCaptured)|)
  }

  /** Video meetings and in-person meetings are disjoint, so together they are at most the total. */
  lemma VideoAndInPersonWithinTotal(meetings: seq<Meeting>)
    ensures StatsOf(meetings).video + |Filter(meetings, (m: Meeting) => m.kind == "in-person")| <= |meetings|
  {
    ExclusiveCounts2(meetings, (m: Meeting) => m.kind == "video" || m.kind == "hybrid", (m: Meeting) => m.kind == "in-person");
  }

  /** The notes counter is zero exactly when no meeting has its notes captured. */
  lemma NotesCountCapturedMeetings(meetings: seq<Meeting>)
    ensures StatsOf(meetings).notes == 0 <==> forall k :: 0 <= k < |meetings| ==> !meetings[k].notesCaptured
  {
    var f := Filter(meetings, (m: Meeting) => m.notesCaptured);
    if f != [] {
      assert f[0].notesCaptured && f[0] in meetings;
    }
  }

  /** What a meeting card shows besides its text. */
  datatype CardParts = CardParts(agendaBadge: bool, notesBadge: bool, joinVideo: bool)

  function CardOf(m: Meeting): (c: CardParts)
    ensures c.agendaBadge <==> m.agendaReady
    ensures c.notesBadge <==> m.notesCaptured
    ensures c.joinVideo <==> (m.kind == "video" || m.kind == "hybrid") && m.status == "scheduled"
  {
    CardParts(m.agendaReady, m.notesCaptured, (m.kind == "video" || m.kind == "hybrid") && m.status == "scheduled")
  }

  /** "Join Video" is offered only on meetings the video counter counts, and never after the meeting. */
  lemma JoinVideoIsCountedVideo(meetings: seq<Meeting>, k: int)
    requires 0 <= k < |meetings|
    ensures CardOf(meetings[k]).joinVideo ==> meetings[k] in Filter(meetings, (m: Meeting) => IsVideo(m))
    ensures meetings[k].status == "completed" ==> !CardOf(meetings[k]).joinVideo
  {
  }

  /** Any three meetings shaped like the fixed list. */
  lemma ShapeCounts(s: seq<Meeting>)
    requires |s| == 3
    requires s[0].status == "scheduled" && s[1].status == "scheduled" && s[2].status == "completed"
    requires s[0].kind == "video" && s[1].kind == "in-person" && s[2].kind == "hybrid"
    requires s[0].agendaReady && s[1].agendaReady && s[2].agendaReady
    requires !s[0].notesCaptured && !s[1].notesCaptured && s[2].notesCaptured
    ensures StatsOf(s) == Stats(2, 2, 3, 1)
  {
    FilterOfThree(s, (m: Meeting) => m.status == "scheduled");
    FilterOfThree(s, (m: Meeting) => m.kind == "video" || m.kind == "hybrid");
    FilterOfThree(s, (m: Meeting) => m.agendaReady);
    FilterOfThree(s, (m: Meeting) => m.notesCaptured);
  }

  /** The fixed list: two scheduled, two over video, three agendas, one set of notes; one "Join Video". */
  lemma FixedListCounts()
    ensures StatsOf(AllMeetings) == Stats(2, 2, 3, 1)
    ensures forall k :: 0 <= k < |AllMeetings| ==> (CardOf(AllMeetings[k]).joinVideo <==> k == 0)
  {
    ShapeCounts(AllMeetings);
  }
}
