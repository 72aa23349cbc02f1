/**
 * The character detail view model: read-only projections of one character,
 * and the dictionary and file name its JSON export uses.
 */
module CharacterDetail {
  import opened SwiftText
  import opened Characters

  datatype CharacterDetailViewModel = CharacterDetailViewModel(character: Character)

  function Name(vm: CharacterDetailViewModel): string { vm.character.name }
  function Status(vm: CharacterDetailViewModel): string { vm.character.status }
  function Species(vm: CharacterDetailViewModel): string { vm.character.species }
  function OriginName(vm: CharacterDetailViewModel): string { vm.character.origin.name }
  function EpisodeCount(vm: CharacterDetailViewModel): nat { |vm.character.episode| }

  /** A value of the export dictionary: text or a count. */
  datatype ExportValue = Text(text: string) | Count(count: int)

  const ExportKeys: set<string> := {"name", "status", "species", "origin", "episodeCount"}

  /** The dictionary `exportCharacterDetails` serialises. */
  function ExportDictionary(vm: CharacterDetailViewModel): (d: map<string, ExportValue>)
    ensures d.Keys == ExportKeys
  {
    map[
      "name" := Text(Name(vm)),
      "status" := Text(Status(vm)),
      "species" := Text(Species(vm)),
      "origin" := Text(OriginName(vm)),
      "episodeCount" := Count(EpisodeCount(vm))]
  }

  /** The name of the exported file. */
  function ExportFileName(vm: CharacterDetailViewModel): (name: string)
    ensures |name| > |"character_"| + |"_details.json"|
    ensures name[..|"character_"|] == "character_"
    ensures name[|name| - |"_details.json"|..] == "_details.json"
  {
    "character_" + IntToString(vm.character.id) + "_details.json"
  }

  /** The projections pass the character's fields through unchanged. */
  lemma ProjectionsOfCharacter(c: Character)
    ensures var vm := CharacterDetailViewModel(c);
      && Name(vm) == c.name && Status(vm) == c.status && Species(vm) == c.species
      && OriginName(vm) == c.origin.name && EpisodeCount(vm) == |c.episode|
  {
  }

  /** The export carries exactly the five projections, each under its own key. */
  lemma ExportMatchesProjections(vm: CharacterDetailViewModel)
    ensures ExportDictionary(vm).Keys == ExportKeys && |ExportKeys| == 5
    ensures ExportDictionary(vm)["name"] == Text(Name(vm))
    ensures ExportDictionary(vm)["status"] == Text(Status(vm))
    ensures ExportDictionary(vm)["species"] == Text(Species(vm))
    ensures ExportDictionary(vm)["origin"] == Text(OriginName(vm))
    ensures ExportDictionary(vm)["episodeCount"] == Count(EpisodeCount(vm))
  {
    assert "name" != "status" && "species" != "origin" && "status" != "origin";
  }

  /** The file name is `character_<id>_details.json`, and two different characters never share one. */
  lemma ExportFileNameInjective(a: CharacterDetailViewModel, b: CharacterDetailViewModel)
    requires ExportFileName(a) == ExportFileName(b)
    ensures a.character.id == b.character.id
  {
    var sa := IntToString(a.character.id);
    var sb := IntToString(b.character.id);
    var prefix := "character_";
    var suffix := "_details.json";
    assert ExportFileName(a) == prefix + sa + suffix;
    assert |sa| == |sb|;
    assert sa == ExportFileName(a)[|prefix|..|prefix| + |sa|];
    assert sb == ExportFileName(b)[|prefix|..|prefix| + |sb|];
    IntToStringInjective(a.character.id, b.character.id);
  }

  /** The unit-test character with id 1 is exported to `character_1_details.json`. */
  lemma ExportFileNameExample(vm: CharacterDetailViewModel)
    requires vm.character.id == 1
    ensures ExportFileName(vm) == "character_1_details.json"
  {
    assert IntToString(1) == "1";
  }
}
