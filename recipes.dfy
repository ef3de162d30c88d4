/**
  The recipe catalog: a recipe names an output extension and the FFmpeg
  arguments that produce it, and lists the input extensions it accepts. The
  built-in recipes, grouped by category, are transcribed below as the source
  lists them; the queries look a category up (an unknown one has no
  recipes), gather the category's input extensions into a sorted list
  without repeats, and convert a recipe to and from a dictionary.
*/
module Recipes {
  import opened Wrappers
  import opened Text

  datatype Recipe = Recipe(
    name: string,
    category: string,
    extension: string,
    ffmpegArgs: seq<string>,
    description: string,
    inputExtensions: seq<string>)

  /** `VIDEO_RECIPES`. */
  const VideoRecipes: seq<Recipe> := [
    Recipe("MP4 (H.264)", "video", ".mp4",
           ["-c:v", "libx264", "-preset", "medium", "-crf", "23", "-c:a", "aac", "-b:a", "128k"],
           "Standard MP4 with H.264 video and AAC audio",
           [".avi", ".mkv", ".mov", ".wmv", ".flv", ".webm", ".mp4", ".m4v", ".mpeg", ".mpg"]),
    Recipe("MP4 (H.264 High Quality)", "video", ".mp4",
           ["-c:v", "libx264", "-preset", "slow", "-crf", "18", "-c:a", "aac", "-b:a", "192k"],
           "High quality MP4 with better compression",
           [".avi", ".mkv", ".mov", ".wmv", ".flv", ".webm", ".mp4", ".m4v", ".mpeg", ".mpg"]),
    Recipe("MP4 (H.265/HEVC)", "video", ".mp4",
           ["-c:v", "libx265", "-preset", "medium", "-crf", "28", "-c:a", "aac", "-b:a", "128k"],
           "MP4 with H.265 video (smaller files, slower encode)",
           [".avi", ".mkv", ".mov", ".wmv", ".flv", ".webm", ".mp4", ".m4v", ".mpeg", ".mpg"]),
    Recipe("WebM (VP9)", "video", ".webm",
           ["-c:v", "libvpx-vp9", "-crf", "30", "-b:v", "0", "-c:a", "libopus", "-b:a", "128k"],
           "WebM with VP9 video and Opus audio",
           [".avi", ".mkv", ".mov", ".wmv", ".flv", ".webm", ".mp4", ".m4v", ".mpeg", ".mpg"]),
    Recipe("MKV (H.264)", "video", ".mkv",
           ["-c:v", "libx264", "-preset", "medium", "-crf", "23", "-c:a", "aac", "-b:a", "128k"],
           "MKV container with H.264 video",
           [".avi", ".mkv", ".mov", ".wmv", ".flv", ".webm", ".mp4", ".m4v", ".mpeg", ".mpg"]),
    Recipe("AVI (MPEG-4)", "video", ".avi",
           ["-c:v", "mpeg4", "-q:v", "5", "-c:a", "libmp3lame", "-b:a", "192k"],
           "AVI with MPEG-4 video and MP3 audio",
           [".avi", ".mkv", ".mov", ".wmv", ".flv", ".webm", ".mp4", ".m4v", ".mpeg", ".mpg"])
  ]

  /** `AUDIO_RECIPES`. */
  const AudioRecipes: seq<Recipe> := [
    Recipe("MP3 (320 kbps)", "audio", ".mp3",
           ["-vn", "-c:a", "libmp3lame", "-b:a", "320k"],
           "High quality MP3",
           [".wav", ".flac", ".aac", ".ogg", ".m4a", ".wma", ".mp3", ".opus"]),
    Recipe("MP3 (192 kbps)", "audio", ".mp3",
           ["-vn", "-c:a", "libmp3lame", "-b:a", "192k"],
           "Standard quality MP3",
           [".wav", ".flac", ".aac", ".ogg", ".m4a", ".wma", ".mp3", ".opus"]),
    Recipe("MP3 (128 kbps)", "audio", ".mp3",
           ["-vn", "-c:a", "libmp3lame", "-b:a", "128k"],
           "Smaller file size MP3",
           [".wav", ".flac", ".aac", ".ogg", ".m4a", ".wma", ".mp3", ".opus"]),
    Recipe("AAC (256 kbps)", "audio", ".m4a",
           ["-vn", "-c:a", "aac", "-b:a", "256k"],
           "High quality AAC",
           [".wav", ".flac", ".aac", ".ogg", ".m4a", ".wma", ".mp3", ".opus"]),
    Recipe("FLAC (Lossless)", "audio", ".flac",
           ["-vn", "-c:a", "flac"],
           "Lossless audio compression",
           [".wav", ".flac", ".aac", ".ogg", ".m4a", ".wma", ".mp3", ".opus"]),
    Recipe("WAV (Uncompressed)", "audio", ".wav",
           ["-vn", "-c:a", "pcm_s16le"],
           "Uncompressed PCM audio",
           [".wav", ".flac", ".aac", ".ogg", ".m4a", ".wma", ".mp3", ".opus"]),
    Recipe("OGG Vorbis", "audio", ".ogg",
           ["-vn", "-c:a", "libvorbis", "-q:a", "6"],
           "OGG Vorbis audio",
           [".wav", ".flac", ".aac", ".ogg", ".m4a", ".wma", ".mp3", ".opus"]),
    Recipe("Opus", "audio", ".opus",
           ["-vn", "-c:a", "libopus", "-b:a", "128k"],
           "Opus audio codec",
           [".wav", ".flac", ".aac", ".ogg", ".m4a", ".wma", ".mp3", ".opus"])
  ]

  /** `EXTRACT_RECIPES`. */
  const ExtractRecipes: seq<Recipe> := [
    Recipe("Extract to MP3 (320 kbps)", "extract", ".mp3",
           ["-vn", "-c:a", "libmp3lame", "-b:a", "320k"],
           "Extract audio from video as MP3",
           [".mp4", ".mkv", ".avi", ".mov", ".wmv", ".flv", ".webm", ".m4v"]),
    Recipe("Extract to MP3 (192 kbps)", "extract", ".mp3",
           ["-vn", "-c:a", "libmp3lame", "-b:a", "192k"],
           "Extract audio from video as MP3 (smaller)",
           [".mp4", ".mkv", ".avi", ".mov", ".wmv", ".flv", ".webm", ".m4v"]),
    Recipe("Extract to AAC", "extract", ".m4a",
           ["-vn", "-c:a", "aac", "-b:a", "192k"],
           "Extract audio from video as AAC",
           [".mp4", ".mkv", ".avi", ".mov", ".wmv", ".flv", ".webm", ".m4v"]),
    Recipe("Extract to WAV", "extract", ".wav",
           ["-vn", "-c:a", "pcm_s16le"],
           "Extract audio from video as uncompressed WAV",
           [".mp4", ".mkv", ".avi", ".mov", ".wmv", ".flv", ".webm", ".m4v"]),
    Recipe("Extract to FLAC", "extract", ".flac",
           ["-vn", "-c:a", "flac"],
           "Extract audio from video as lossless FLAC",
           [".mp4", ".mkv", ".avi", ".mov", ".wmv", ".flv", ".webm", ".m4v"])
  ]

  /** `RESIZE_RECIPES`. */
  const ResizeRecipes: seq<Recipe> := [
    Recipe("1080p (Full HD)", "resize", ".mp4",
           ["-vf", "scale=-2:1080", "-c:v", "libx264", "-preset", "medium", "-crf", "23", "-c:a", "aac", "-b:a", "128k"],
           "Scale to 1080p height, maintain aspect ratio",
           [".mp4", ".mkv", ".avi", ".mov", ".wmv", ".flv", ".webm", ".m4v"]),
    Recipe("720p (HD)", "resize", ".mp4",
           ["-vf", "scale=-2:720", "-c:v", "libx264", "-preset", "medium", "-crf", "23", "-c:a", "aac", "-b:a", "128k"],
           "Scale to 720p height, maintain aspect ratio",
           [".mp4", ".mkv", ".avi", ".mov", ".wmv", ".flv", ".webm", ".m4v"]),
    Recipe("480p (SD)", "resize", ".mp4",
           ["-vf", "scale=-2:480", "-c:v", "libx264", "-preset", "medium", "-crf", "23", "-c:a", "aac", "-b:a", "96k"],
           "Scale to 480p height, maintain aspect ratio",
           [".mp4", ".mkv", ".avi", ".mov", ".wmv", ".flv", ".webm", ".m4v"]),
    Recipe("360p (Low)", "resize", ".mp4",
           ["-vf", "scale=-2:360", "-c:v", "libx264", "-preset", "medium", "-crf", "25", "-c:a", "aac", "-b:a", "64k"],
           "Scale to 360p height, maintain aspect ratio",
           [".mp4", ".mkv", ".avi", ".mov", ".wmv", ".flv", ".webm", ".m4v"]),
    Recipe("Compress (High Quality)", "resize", ".mp4",
           ["-c:v", "libx264", "-preset", "slow", "-crf", "20", "-c:a", "aac", "-b:a", "128k"],
           "Reduce file size with minimal quality loss",
           [".mp4", ".mkv", ".avi", ".mov", ".wmv", ".flv", ".webm", ".m4v"]),
    Recipe("Compress (Medium Quality)", "resize", ".mp4",
           ["-c:v", "libx264", "-preset", "medium", "-crf", "26", "-c:a", "aac", "-b:a", "96k"],
           "Balance between file size and quality",
           [".mp4", ".mkv", ".avi", ".mov", ".wmv", ".flv", ".webm", ".m4v"]),
    Recipe("Compress (Small File)", "resize", ".mp4",
           ["-c:v", "libx264", "-preset", "medium", "-crf", "32", "-c:a", "aac", "-b:a", "64k"],
           "Maximum compression, noticeable quality loss",
           [".mp4", ".mkv", ".avi", ".mov", ".wmv", ".flv", ".webm", ".m4v"])
  ]

  /** `YOUTUBE_RECIPES`. */
  const YouTubeRecipes: seq<Recipe> := [
    Recipe("YouTube 4K (2160p)", "youtube", ".mp4",
           ["-vf", "scale=-2:2160", "-c:v", "libx264", "-preset", "slow", "-crf", "18", "-profile:v", "high", "-level", "5.1", "-pix_fmt", "yuv420p", "-c:a", "aac", "-b:a", "384k", "-ar", "48000", "-movflags", "+faststart"],
           "Best quality for 4K YouTube uploads",
           [".mp4", ".mkv", ".avi", ".mov", ".wmv", ".flv", ".webm", ".m4v", ".mpeg", ".mpg"]),
    Recipe("YouTube 1080p (Full HD)", "youtube", ".mp4",
           ["-vf", "scale=-2:1080", "-c:v", "libx264", "-preset", "medium", "-crf", "20", "-profile:v", "high", "-level", "4.2", "-pix_fmt", "yuv420p", "-c:a", "aac", "-b:a", "384k", "-ar", "48000", "-movflags", "+faststart"],
           "Standard HD for most YouTube uploads",
           [".mp4", ".mkv", ".avi", ".mov", ".wmv", ".flv", ".webm", ".m4v", ".mpeg", ".mpg"]),
    Recipe("YouTube 720p (HD)", "youtube", ".mp4",
           ["-vf", "scale=-2:720", "-c:v", "libx264", "-preset", "medium", "-crf", "20", "-profile:v", "high", "-level", "4.0", "-pix_fmt", "yuv420p", "-c:a", "aac", "-b:a", "256k", "-ar", "48000", "-movflags", "+faststart"],
           "Good quality with faster upload times",
           [".mp4", ".mkv", ".avi", ".mov", ".wmv", ".flv", ".webm", ".m4v", ".mpeg", ".mpg"]),
    Recipe("YouTube 480p (SD)", "youtube", ".mp4",
           ["-vf", "scale=-2:480", "-c:v", "libx264", "-preset", "medium", "-crf", "22", "-profile:v", "main", "-level", "3.1", "-pix_fmt", "yuv420p", "-c:a", "aac", "-b:a", "128k", "-ar", "48000", "-movflags", "+faststart"],
           "Low bandwidth option for slower connections",
           [".mp4", ".mkv", ".avi", ".mov", ".wmv", ".flv", ".webm", ".m4v", ".mpeg", ".mpg"]),
    Recipe("YouTube Shorts (1080x1920)", "youtube", ".mp4",
           ["-vf", "scale=1080:1920:force_original_aspect_ratio=decrease,pad=1080:1920:(ow-iw)/2:(oh-ih)/2", "-c:v", "libx264", "-preset", "medium", "-crf", "20", "-profile:v", "high", "-level", "4.2", "-pix_fmt", "yuv420p", "-c:a", "aac", "-b:a", "256k", "-ar", "48000", "-movflags", "+faststart"],
           "Vertical 9:16 format for YouTube Shorts (Full HD)",
           [".mp4", ".mkv", ".avi", ".mov", ".wmv", ".flv", ".webm", ".m4v", ".mpeg", ".mpg"]),
    Recipe("YouTube Shorts (720x1280)", "youtube", ".mp4",
           ["-vf", "scale=720:1280:force_original_aspect_ratio=decrease,pad=720:1280:(ow-iw)/2:(oh-ih)/2", "-c:v", "libx264", "-preset", "medium", "-crf", "22", "-profile:v", "high", "-level", "4.0", "-pix_fmt", "yuv420p", "-c:a", "aac", "-b:a", "192k", "-ar", "48000", "-movflags", "+faststart"],
           "Vertical 9:16 format for YouTube Shorts (smaller)",
           [".mp4", ".mkv", ".avi", ".mov", ".wmv", ".flv", ".webm", ".m4v", ".mpeg", ".mpg"]),
    Recipe("YouTube High Quality", "youtube", ".mp4",
           ["-c:v", "libx264", "-preset", "slow", "-crf", "17", "-profile:v", "high", "-level", "5.1", "-pix_fmt", "yuv420p", "-c:a", "aac", "-b:a", "384k", "-ar", "48000", "-movflags", "+faststart"],
           "Maximum quality, keeps original resolution (slower encode)",
           [".mp4", ".mkv", ".avi", ".mov", ".wmv", ".flv", ".webm", ".m4v", ".mpeg", ".mpg"]),
    Recipe("YouTube Fast Upload", "youtube", ".mp4",
           ["-c:v", "libx264", "-preset", "fast", "-crf", "23", "-profile:v", "high", "-pix_fmt", "yuv420p", "-c:a", "aac", "-b:a", "256k", "-ar", "48000", "-movflags", "+faststart"],
           "Balanced quality for quick encoding and upload",
           [".mp4", ".mkv", ".avi", ".mov", ".wmv", ".flv", ".webm", ".m4v", ".mpeg", ".mpg"]),
    Recipe("YouTube Small File", "youtube", ".mp4",
           ["-vf", "scale=-2:720", "-c:v", "libx264", "-preset", "medium", "-crf", "26", "-profile:v", "main", "-pix_fmt", "yuv420p", "-c:a", "aac", "-b:a", "128k", "-ar", "48000", "-movflags", "+faststart"],
           "Minimize file size for limited bandwidth",
           [".mp4", ".mkv", ".avi", ".mov", ".wmv", ".flv", ".webm", ".m4v", ".mpeg", ".mpg"])
  ]

  /** `REMUX_RECIPES`. */
  const RemuxRecipes: seq<Recipe> := [
    Recipe("Remux to MP4", "remux", ".mp4",
           ["-c", "copy"],
           "Change container to MP4 without re-encoding",
           [".mkv", ".avi", ".mov", ".wmv", ".flv", ".webm", ".m4v"]),
    Recipe("Remux to MKV", "remux", ".mkv",
           ["-c", "copy"],
           "Change container to MKV without re-encoding",
           [".mp4", ".avi", ".mov", ".wmv", ".flv", ".webm", ".m4v"]),
    Recipe("Remux to MOV", "remux", ".mov",
           ["-c", "copy"],
           "Change container to MOV without re-encoding",
           [".mp4", ".mkv", ".avi", ".wmv", ".flv", ".webm", ".m4v"]),
    Recipe("Remux to WebM", "remux", ".webm",
           ["-c", "copy"],
           "Change container to WebM without re-encoding (VP8/VP9 only)",
           [".mp4", ".mkv", ".avi", ".mov"])
  ]

  /** `BUILTIN_RECIPES`: every built-in recipe, under its category's key. */
  const BuiltinRecipes: map<string, seq<Recipe>> := map[
    "video" := VideoRecipes,
    "audio" := AudioRecipes,
    "extract" := ExtractRecipes,
    "resize" := ResizeRecipes,
    "remux" := RemuxRecipes,
    "youtube" := YouTubeRecipes]

  const Categories: set<string> := {"video", "audio", "extract", "resize", "remux", "youtube"}

  /** `get_recipes_by_category`: `BUILTIN_RECIPES.get(category, [])`. */
  function GetRecipesByCategory(category: string): seq<Recipe> {
    if category in BuiltinRecipes then BuiltinRecipes[category] else []
  }

  /** Every list in the catalog holds recipes of its own category only. */
  predicate OfCategory(recipes: seq<Recipe>, category: string) {
    forall i :: 0 <= i < |recipes| ==> recipes[i].category == category
  }

  /**
    The six categories are exactly the keys with recipes: each of them has a
    non-empty list whose recipes all carry that category, and any other
    string, the empty one included, has none.
  */
  lemma CategoryLookup(category: string)
    ensures category in Categories <==> GetRecipesByCategory(category) != []
    ensures OfCategory(GetRecipesByCategory(category), category)
  {
    assert BuiltinRecipes.Keys == Categories;
    ListsOfTheirCategory();
  }

  lemma ListsOfTheirCategory()
    ensures OfCategory(VideoRecipes, "video") && VideoRecipes != []
    ensures OfCategory(AudioRecipes, "audio") && AudioRecipes != []
    ensures OfCategory(ExtractRecipes, "extract") && ExtractRecipes != []
    ensures OfCategory(ResizeRecipes, "resize") && ResizeRecipes != []
    ensures OfCategory(RemuxRecipes, "remux") && RemuxRecipes != []
    ensures OfCategory(YouTubeRecipes, "youtube") && YouTubeRecipes != []
  {
    VideoOfCategory();
    AudioOfCategory();
    ExtractOfCategory();
    ResizeOfCategory();
    RemuxOfCategory();
    YouTubeOfCategory();
  }

  lemma VideoOfCategory() ensures OfCategory(VideoRecipes, "video") && VideoRecipes != [] {}
  lemma AudioOfCategory() ensures OfCategory(AudioRecipes, "audio") && AudioRecipes != [] {}
  lemma ExtractOfCategory() ensures OfCategory(ExtractRecipes, "extract") && ExtractRecipes != [] {}
  lemma ResizeOfCategory() ensures OfCategory(ResizeRecipes, "resize") && ResizeRecipes != [] {}
  lemma RemuxOfCategory() ensures OfCategory(RemuxRecipes, "remux") && RemuxRecipes != [] {}
  lemma YouTubeOfCategory() ensures OfCategory(YouTubeRecipes, "youtube") && YouTubeRecipes != [] {}

  lemma CatalogSizes()
    ensures |VideoRecipes| == 6 && |AudioRecipes| == 8
    ensures |GetRecipesByCategory("video")| == 6 && |GetRecipesByCategory("audio")| == 8
  {
  }

  // Recipe.to_dict and Recipe.from_dict

  /** A value of the dictionary `dataclasses.asdict` builds: a string or a list of strings. */
  datatype Value = Str(text: string) | StrList(items: seq<string>)

  type Dict = map<string, Value>

  /** The dataclass's fields, and those without a default value. */
  const FieldNames: set<string> := {"name", "category", "extension", "ffmpeg_args", "description", "input_extensions"}
  const RequiredFields: set<string> := {"name", "category", "extension", "ffmpeg_args"}

  /** What `from_dict` fills in for a field the dictionary leaves out. */
  const Defaults: Dict := map["description" := Str(""), "input_extensions" := StrList([])]

  /** `to_dict`: one entry per field, named as the field. */
  function ToDict(r: Recipe): (d: Dict)
    ensures d.Keys == FieldNames
  {
    map[
      "name" := Str(r.name),
      "category" := Str(r.category),
      "extension" := Str(r.extension),
      "ffmpeg_args" := StrList(r.ffmpegArgs),
      "description" := Str(r.description),
      "input_extensions" := StrList(r.inputExtensions)]
  }

  /** Every field the dictionary holds has the kind of value its dataclass field declares. */
  predicate WellTyped(d: Dict) {
    && ("name" in d ==> d["name"].Str?)
    && ("category" in d ==> d["category"].Str?)
    && ("extension" in d ==> d["extension"].Str?)
    && ("ffmpeg_args" in d ==> d["ffmpeg_args"].StrList?)
    && ("description" in d ==> d["description"].Str?)
    && ("input_extensions" in d ==> d["input_extensions"].StrList?)
  }

  /**
    `from_dict`, that is `Recipe(**data)`. An unknown key or a missing field
    without a default makes the call raise TypeError, here None; an absent
    `description` or `input_extensions` takes its default. A well-typed
    dictionary is accepted exactly when its keys are fields and include the
    four without a default.
  */
  function FromDict(d: Dict): (r: Option<Recipe>)
    ensures r.Some? ==> RequiredFields <= d.Keys <= FieldNames
    ensures WellTyped(d) ==> (r.Some? <==> RequiredFields <= d.Keys <= FieldNames)
  {
    if !(d.Keys <= FieldNames) || !(RequiredFields <= d.Keys) then None
    else
      var full := Defaults + d;
      if full["name"].Str? && full["category"].Str? && full["extension"].Str? && full["ffmpeg_args"].StrList?
         && full["description"].Str? && full["input_extensions"].StrList?
      then
        Some(Recipe(full["name"].text, full["category"].text, full["extension"].text, full["ffmpeg_args"].items,
                    full["description"].text, full["input_extensions"].items))
      else None
  }

  /** Every recipe survives the trip through its dictionary, field for field. */
  lemma DictRoundTrip(r: Recipe)
    ensures FromDict(ToDict(r)) == Some(r)
  {
    var d := ToDict(r);
    assert Defaults + d == d;
  }

  /**
    The other direction: a dictionary `from_dict` accepts is, once the
    defaults are filled in, the dictionary of the recipe it builds.
  */
  lemma DictRoundTripBack(d: Dict)
    requires FromDict(d).Some?
    ensures ToDict(FromDict(d).value) == Defaults + d
  {
    var full := Defaults + d;
    assert full.Keys == FieldNames;
    var back := ToDict(FromDict(d).value);
    forall k | k in FieldNames
      ensures back[k] == full[k]
    {
    }
  }

  /** A dictionary with a key that is no field, or without one of the first four fields, is refused. */
  lemma FromDictRefuses(d: Dict, k: string)
    requires (k in d && k !in FieldNames) || (k in RequiredFields && k !in d)
    ensures FromDict(d) == None
  {
  }

  // get_all_recipes

  /** A mutable `dict[str, list[Recipe]]`. */
  class RecipeTable {
    var entries: map<string, seq<Recipe>>

    constructor (entries: map<string, seq<Recipe>>)
      ensures this.entries == entries
    {
      this.entries := entries;
    }

    /** `dict.copy()`: a new dictionary object holding the same entries. */
    method Copy() returns (c: RecipeTable)
      ensures fresh(c) && c.entries == entries
    {
      c := new RecipeTable(entries);
    }

    /** `table[key] = value`. */
    method Store(key: string, value: seq<Recipe>)
      modifies this
      ensures entries == old(entries)[key := value]
    {
      entries := entries[key := value];
    }
  }

  /** The module-level `BUILTIN_RECIPES` dictionary object. */
  method NewBuiltinTable() returns (t: RecipeTable)
    ensures fresh(t) && t.entries == BuiltinRecipes
  {
    t := new RecipeTable(BuiltinRecipes);
  }

  /** `get_all_recipes`: `BUILTIN_RECIPES.copy()`, given the built-in table. */
  method GetAllRecipes(builtin: RecipeTable) returns (c: RecipeTable)
    ensures fresh(c) && c.entries == builtin.entries
  {
    c := builtin.Copy();
  }

  /**
    The copy is a different object: storing a new key in it gives the copy
    that key and leaves the built-in table as it was.
  */
  method AddToCopy(builtin: RecipeTable, key: string, value: seq<Recipe>) returns (c: RecipeTable)
    ensures c != builtin && c.entries == builtin.entries[key := value]
    ensures builtin.entries == old(builtin.entries)
  {
    c := GetAllRecipes(builtin);
    c.Store(key, value);
  }

  // get_input_extensions_for_category

  /** Some recipe of the category accepts the extension. */
  ghost predicate InputExtensionOf(category: string, e: string) {
    AcceptedBySome(GetRecipesByCategory(category), e)
  }

  ghost predicate AcceptedBySome(recipes: seq<Recipe>, e: string) {
    exists i :: 0 <= i < |recipes| && e in recipes[i].inputExtensions
  }

  predicate StrictlySorted(r: seq<string>) {
    forall i, j :: 0 <= i < j < |r| ==> LexLess(r[i], r[j])
  }

  /**
    `get_input_extensions_for_category`: the union of the category's input
    extensions as a list in string order, each once; none for an unknown
    category.
  */
  method GetInputExtensionsForCategory(category: string) returns (r: seq<string>)
    ensures StrictlySorted(r)
    ensures forall i, j :: 0 <= i < j < |r| ==> r[i] != r[j]
    ensures forall e :: e in r <==> InputExtensionOf(category, e)
    ensures category !in Categories ==> r == []
  {
    var recipes := GetRecipesByCategory(category);
    r := InputExtensionUnion(recipes);
    CategoryLookup(category);
  }

  /** The loop of get_input_extensions_for_category: `set.update` per recipe, then `sorted`. */
  method InputExtensionUnion(recipes: seq<Recipe>) returns (r: seq<string>)
    ensures StrictlySorted(r)
    ensures forall i, j :: 0 <= i < j < |r| ==> r[i] != r[j]
    ensures forall e :: e in r <==> AcceptedBySome(recipes, e)
    ensures recipes == [] ==> r == []
  {
    var extensions: set<string> := {};
    for i := 0 to |recipes|
      invariant forall e :: e in extensions <==> exists j :: 0 <= j < i && e in recipes[j].inputExtensions
    {
      extensions := extensions + (set e | e in recipes[i].inputExtensions);
    }
    assert recipes == [] ==> extensions == {};
    r := SortedList(extensions);
    forall i, j | 0 <= i < j < |r|
      ensures r[i] != r[j]
    {
      if r[i] == r[j] {
        LexLessIrreflexive(r[i]);
      }
    }
  }

  /** `sorted(s)` for a set of strings: its elements in string order. */
  method SortedList(s: set<string>) returns (r: seq<string>)
    ensures StrictlySorted(r)
    ensures forall e :: e in r <==> e in s
    ensures |r| == |s|
  {
    var rest := s;
    r := [];
    while rest != {}
      invariant StrictlySorted(r)
      invariant forall e :: e in s <==> (e in r || e in rest)
      invariant forall i, e :: 0 <= i < |r| && e in rest ==> LexLess(r[i], e)
      invariant rest <= s && |r| + |rest| == |s|
      decreases |rest|
    {
      LeastExists(rest);
      var m :| m in rest && forall x :: x in rest ==> LexLessEq(m, x);
      forall i, e | 0 <= i < |r| + 1 && e in rest - {m}
        ensures LexLess((r + [m])[i], e)
      {
        if i == |r| {
          assert LexLessEq(m, e) && m != e;
        }
      }
      r := r + [m];
      rest := rest - {m};
    }
  }

  /** A non-empty set of strings has a least element in string order. */
  lemma {:induction false} LeastExists(s: set<string>)
    requires s != {}
    ensures exists m :: m in s && forall x :: x in s ==> LexLessEq(m, x)
    decreases |s|
  {
    var y :| y in s;
    var rest := s - {y};
    if rest == {} {
      assert s == {y};
    } else {
      LeastExists(rest);
      var m :| m in rest && forall x :: x in rest ==> LexLessEq(m, x);
      LexLessTotal(m, y);
      if LexLess(y, m) {
        forall x | x in s
          ensures LexLessEq(y, x)
        {
          if x != y && x != m {
            assert x in rest && LexLess(m, x);
            LexLessTransitive(y, m, x);
          }
        }
      } else {
        assert forall x :: x in s ==> LexLessEq(m, x);
      }
    }
  }
}
