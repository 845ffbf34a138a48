/** The property id both overlay variants build from a selection, such as
    `acfosw_25_3` for technologies `acfosw` and speed `25_3`, and the speed
    key they read back out of it. */
module PropertyIds {

  import opened Values
  import opened Strings

  /** `[selectedTech, selectedSpeed].join('_')`. */
  function PropertyId(selectedTech: string, selectedSpeed: string): (r: string)
    ensures r == selectedTech + "_" + selectedSpeed
  {
    assert [selectedTech, selectedSpeed][1..] == [selectedSpeed];
    assert Join([selectedSpeed], "_") == selectedSpeed;
    Join([selectedTech, selectedSpeed], "_")
  }

  /** `propertyID.split('_')[1]`: defined exactly when the id holds a
      `_`, and then free of `_` itself. */
  function SpeedKey(propertyId: string): (r: Option<string>)
    ensures r.Some? <==> '_' in propertyId
    ensures r.Some? ==> '_' !in r.value
  {
    Field(propertyId, '_', 1)
  }

  /** For a technology string without `_`, the speed key of the property id
      is the first `_`-field of the speed. */
  lemma PropertyIdSpeedKey(selectedTech: string, selectedSpeed: string)
    requires '_' !in selectedTech
    ensures SpeedKey(PropertyId(selectedTech, selectedSpeed)) == Some(Split(selectedSpeed, '_')[0])
  {
    SplitAtSeparator(selectedTech, '_', selectedSpeed);
    SplitWithoutSeparator(selectedTech, '_');
  }

  /** The default selection resolves to the speed key "25". */
  lemma DefaultSpeedKey()
    ensures PropertyId("acfosw", "25_3") == "acfosw_25_3"
    ensures SpeedKey("acfosw_25_3") == Some("25")
  {
    PropertyIdSpeedKey("acfosw", "25_3");
    DefaultSpeedField();
  }

  lemma DefaultSpeedField()
    ensures Split("25_3", '_')[0] == "25"
  {
    SplitAtSeparator("25", '_', "3");
    assert "25" + "_" + "3" == "25_3";
    SplitWithoutSeparator("25", '_');
  }
}
