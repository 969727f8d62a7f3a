/**
  A heading from the parser's unit tests, matched step by step. It shows what
  `_create_scene` does with an ordinary interior heading: the `INT.` marker is
  not part of the location group, so the interior test, which looks for `INT`
  in the location, does not see it.
*/
module SampleHeadings {
  import opened Wrappers
  import opened Text
  import opened HeadingPattern
  import opened SceneFactory

  const RoomAtNight := "INT. ROOM - NIGHT"

  lemma RoomAtNightMarker()
    ensures MarkerEnd(RoomAtNight) == Some(4) && SpaceRun(RoomAtNight, 4) == 1
  {
    var s := RoomAtNight;
    assert s[0] == 'I' && s[1] == 'N' && s[2] == 'T' && s[3] == '.';
    assert !StarAt(s, 0) && StarRun(s, 0) == 0;
    assert IsMarkerAt(s, 0);
    assert s[4] == ' ' && s[5] == 'R';
    assert !SpaceAt(s, 5) && SpaceRun(s, 5) == 0;
  }

  /** The only separator ` - ` of the line starts at position 9. */
  lemma RoomAtNightSeparator()
    ensures SeparatorAt(RoomAtNight, 9)
    ensures forall j | 9 < j < |RoomAtNight| :: !SeparatorAt(RoomAtNight, j)
    ensures DashPos(RoomAtNight, 9) == 10 && TimePos(RoomAtNight, 10) == 12
  {
    var s := RoomAtNight;
    assert SpaceRun(s, 10) == 0;
    assert SpaceRun(s, 12) == 0;
    assert SpaceRun(s, 11) == 1;
    forall j | 9 < j < |s|
      ensures !SeparatorAt(s, j)
    {
      if j == 11 {
        assert s[DashPos(s, 11)] == 'N';
      } else {
        assert !SpaceAt(s, j);
      }
    }
  }

  lemma RoomAtNightTime()
    ensures LetterRun(RoomAtNight, 12) == 5
  {
    assert LetterRun(RoomAtNight, 17) == 0;
  }

  lemma RoomAtNightSplit()
    ensures FindSplit(RoomAtNight) == Some(Split(0, 5, 9, 10, 12, 17))
  {
    RoomAtNightMarker();
    RoomAtNightSeparator();
    LastSeparatorAt(RoomAtNight, 6, |RoomAtNight|, 9);
    RoomAtNightTime();
  }

  lemma RoomAtNightHeading()
    ensures MatchHeading(RoomAtNight) == Some(Heading("ROOM", "NIGHT"))
  {
    RoomAtNightSplit();
    assert RoomAtNight[5..9] == "ROOM" && RoomAtNight[12..17] == "NIGHT";
  }

  lemma RoomIsExterior()
    ensures Environment("ROOM").kind == "Exterior"
  {
    forall i | 0 <= i <= 1
      ensures !OccursAt("ROOM", "INT", i)
    {
      assert "ROOM"[i] != 'I';
    }
  }

  /** `INT. ROOM - NIGHT` is a heading for the location `ROOM` at `NIGHT`;
      the scene it opens is described as an exterior, lit for the night. */
  lemma InteriorHeadingReadsExterior()
    ensures MatchHeading(RoomAtNight) == Some(Heading("ROOM", "NIGHT"))
    ensures Environment("ROOM").kind == "Exterior"
    ensures Lighting("NIGHT") == NightLighting
  {
    RoomAtNightHeading();
    RoomIsExterior();
    NightIsLitForNight();
  }

  lemma NightIsLitForNight()
    ensures Lighting("NIGHT") == NightLighting
  {
    assert Upper("NIGHT") == "NIGHT";
    assert !Contains("NIGHT", "DAY") by {
      forall i | 0 <= i <= 2
        ensures !OccursAt("NIGHT", "DAY", i)
      {
        assert "NIGHT"[i] != 'D';
      }
    }
    assert OccursAt("NIGHT", "NIGHT", 0);
  }
}
