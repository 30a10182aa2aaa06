/** The detail card's text fields (`SatelliteDetailUIModel`). */
module SatelliteDetailUi {
  import opened Wrappers
  import opened Numerals
  import opened Seqs
  import opened Text
  import opened Domain

  datatype SatelliteDetailUIModel = SatelliteDetailUIModel(
    id: Int32,
    name: string,
    heightMass: string,
    cost: string)

  /** Decimal renderings never contain the separator. */
  lemma NoSlashInShow(n: int)
    ensures '/' !in Show(n)
  {
  }

  /**
   * `SatelliteDetailDomainModel.toUIModel()`: `heightMass` is the decimal
   * height, `/`, and the decimal mass, so it holds exactly one `/` and
   * splitting on it gives the two texts back; `cost` is the decimal launch
   * cost and parses back to it.
   */
  function ToUIModel(d: SatelliteDetailDomainModel): (u: SatelliteDetailUIModel)
    ensures u.id == d.id && u.name == d.name
    ensures u.heightMass == Show(d.height) + "/" + Show(d.mass)
    ensures u.cost == Show(d.costPerLaunch)
    ensures Count(u.heightMass, '/') == 1
    ensures Split(u.heightMass, '/') == [Show(d.height), Show(d.mass)]
    ensures ParseInt(u.cost) == Some(d.costPerLaunch)
  {
    var heightMass := Show(d.height) + "/" + Show(d.mass);
    NoSlashInShow(d.height);
    NoSlashInShow(d.mass);
    SplitJoined(Show(d.height), Show(d.mass), '/');
    ParseShow(d.costPerLaunch);
    SatelliteDetailUIModel(d.id, d.name, heightMass, Show(d.costPerLaunch))
  }

  /** Height and mass can be read back from the card. */
  lemma HeightMassReadsBack(d: SatelliteDetailDomainModel)
    ensures var parts := Split(ToUIModel(d).heightMass, '/');
            |parts| == 2 && ParseInt(parts[0]) == Some(d.height) && ParseInt(parts[1]) == Some(d.mass)
  {
    ParseShow(d.height);
    ParseShow(d.mass);
  }

  lemma ShowOfTestValues()
    ensures Show(50) == "50" && Show(1000) == "1000" && Show(1000000) == "1000000"
  {
    assert NatDigits(50) == "50" by {
      assert NatDigits(5) == "5";
    }
    assert NatDigits(1000) == "1000" by {
      assert NatDigits(1) == "1";
      assert NatDigits(10) == "10";
      assert NatDigits(100) == "100";
    }
    assert NatDigits(1000000) == "1000000" by {
      assert NatDigits(1000) == "1000" by {
        assert NatDigits(1) == "1";
        assert NatDigits(10) == "10";
        assert NatDigits(100) == "100";
      }
      assert NatDigits(10000) == "10000";
      assert NatDigits(100000) == "100000";
    }
  }

  /** The card of the detail used throughout the source's view-model tests. */
  lemma CardOfTestSatellite()
    ensures var u := ToUIModel(SatelliteDetailDomainModel(1, "Test Satellite", 1000000, 50, 1000));
            u.heightMass == "50/1000" && u.cost == "1000000"
  {
    ShowOfTestValues();
    assert "50" + "/" + "1000" == "50/1000";
  }
}
