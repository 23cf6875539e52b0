/** The source books of `config/sources.json` and how a record's source is matched against
    the user's selection of them. */
module Sources {
  import opened Wrappers
  import opened Text
  import opened Values

  /** One entry of the `sources` list: its key, its display name (the category records are
      filed under), and the source strings it is known by in OggDude and Adversaries data. */
  datatype SourceConfig = SourceConfig(key: string, name: string, oggdudeSources: seq<string>,
                                       adversariesSources: seq<string>)

  /** `source_config['key'] in selected_sources` */
  predicate IsSelected(c: SourceConfig, selected: seq<string>) {
    c.key in selected
  }

  /** `oggdude_source.lower() in source.lower()` for the sources of one config. */
  predicate NamesSource(c: SourceConfig, source: string) {
    exists j :: 0 <= j < |c.oggdudeSources| && Contains(Lower(source), Lower(c.oggdudeSources[j]))
  }

  /** Some selected config names the source string. */
  predicate Named(configs: seq<SourceConfig>, selected: seq<string>, source: string) {
    exists i :: 0 <= i < |configs| && IsSelected(configs[i], selected) && NamesSource(configs[i], source)
  }

  /** Some selected config lists an OggDude source: the comparison `.lower()` is then reached. */
  predicate ComparesSource(configs: seq<SourceConfig>, selected: seq<string>) {
    exists i :: 0 <= i < |configs| && IsSelected(configs[i], selected) && configs[i].oggdudeSources != []
  }

  /** The triple loop over selected configs and their OggDude sources for one source value:
      it matches when some selected config names it, and the first comparison raises
      `AttributeError` when the value is not a string. */
  function OggdudeMatch(configs: seq<SourceConfig>, selected: seq<string>, source: Value): (r: Result<bool>)
    ensures r.Err? <==> !source.VStr? && ComparesSource(configs, selected)
    ensures r == Ok(true) <==> source.VStr? && Named(configs, selected, source.s)
    decreases |configs|
  {
    if |configs| == 0 then Ok(false)
    else
      var c := configs[0];
      if IsSelected(c, selected) && c.oggdudeSources != [] then
        if !source.VStr? then Err("AttributeError: object has no attribute 'lower'")
        else if NamesSource(c, source.s) then Ok(true)
        else
          var rest := OggdudeMatch(configs[1..], selected, source);
          assert forall i :: 0 < i < |configs| ==> configs[i] == configs[1..][i - 1];
          rest
      else
        var rest := OggdudeMatch(configs[1..], selected, source);
        assert forall i :: 0 < i < |configs| ==> configs[i] == configs[1..][i - 1];
        rest
  }
}
