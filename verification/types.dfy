/**
 * The closed option catalogues and the three request records.
 *
 * In the program each option is a string-valued enum member whose value is
 * its display label, and the selection controls turn the chosen label back
 * into a member with a cast. Here each catalogue is a datatype, `Label` is the
 * member-to-label table, `FromLabel` is the cast, and `All` lists the members
 * in declaration order (the order in which the controls offer them).
 */
module Types {
  import opened Wrappers

  /** Artistic style of an emote; `NoStyle` is the "none / custom" sentinel. */
  datatype EmoteStyle =
    | NoStyle | Cartoon | PixelArt | Anime | Realistic | Meme
  {
    function Label(): string
    {
      match this
      case NoStyle => "Ninguno / Personalizado"
      case Cartoon => "Cartoon Vectorial"
      case PixelArt => "Pixel Art"
      case Anime => "Anime Chibi"
      case Realistic => "Semi-Realista 3D"
      case Meme => "Estilo Meme"
    }

    static const All: seq<EmoteStyle> :=
      [EmoteStyle.NoStyle, EmoteStyle.Cartoon, EmoteStyle.PixelArt, EmoteStyle.Anime,
       EmoteStyle.Realistic, EmoteStyle.Meme]

    static const LabelOf: EmoteStyle -> string := (x: EmoteStyle) => x.Label()

    static function FromLabel(name: string): (r: Option<EmoteStyle>)
      ensures r.Some? ==> r.value.Label() == name
    {
      FirstWithLabel(All, LabelOf, name)
    }
  }

  /** Artistic style of a portrait; `NoStyle` is the "none / custom" sentinel. */
  datatype PortraitStyle =
    | NoStyle | Disney3D | Anime | Gta | Simpsons | Ghibli | Chibi | Manga | Comic | PixelArt | Vector
    | FlatDesign | Childlike | Fantasy | ConceptArt | Cyberpunk | Sketch | OilPainting
  {
    function Label(): string
    {
      match this
      case NoStyle => "Ninguno / Personalizado"
      case Disney3D => "Estilo Disney/Pixar 3D"
      case Anime => "Anime Japonés Épico"
      case Gta => "Estilo GTA (Grand Theft Auto)"
      case Simpsons => "Estilo Amarillo (Simpsons)"
      case Ghibli => "Estilo Studio Ghibli"
      case Chibi => "Chibi / Kawaii"
      case Manga => "Manga Blanco y Negro"
      case Comic => "Comic Americano Vintage"
      case PixelArt => "Pixel Art Retro"
      case Vector => "Arte Vectorial Plano"
      case FlatDesign => "Flat Design Minimalista"
      case Childlike => "Cuento Infantil / Crayon"
      case Fantasy => "Fantasía Épica RPG"
      case ConceptArt => "Concept Art Videojuego"
      case Cyberpunk => "Cyberpunk Futurista"
      case Sketch => "Boceto a Lápiz Artístico"
      case OilPainting => "Pintura al Óleo Clásica"
    }

    static const All: seq<PortraitStyle> :=
      [PortraitStyle.NoStyle, PortraitStyle.Disney3D, PortraitStyle.Anime, PortraitStyle.Gta,
       PortraitStyle.Simpsons, PortraitStyle.Ghibli, PortraitStyle.Chibi, PortraitStyle.Manga,
       PortraitStyle.Comic, PortraitStyle.PixelArt, PortraitStyle.Vector,
       PortraitStyle.FlatDesign, PortraitStyle.Childlike, PortraitStyle.Fantasy,
       PortraitStyle.ConceptArt, PortraitStyle.Cyberpunk, PortraitStyle.Sketch,
       PortraitStyle.OilPainting]

    static const LabelOf: PortraitStyle -> string := (x: PortraitStyle) => x.Label()

    static function FromLabel(name: string): (r: Option<PortraitStyle>)
      ensures r.Some? ==> r.value.Label() == name
    {
      FirstWithLabel(All, LabelOf, name)
    }
  }

  /** The replacement background of the background-removal mode. */
  datatype BackgroundOption =
    | Transparent | White | Black | Green | Cyberpunk | Studio | Nature
  {
    function Label(): string
    {
      match this
      case Transparent => "Fondo Transparente (Intento IA)"
      case White => "Fondo Blanco (Producto)"
      case Black => "Fondo Negro (Dark Mode)"
      case Green => "Pantalla Verde (Chroma Key)"
      case Cyberpunk => "Fondo Neon/Cyberpunk"
      case Studio => "Fondo Estudio Fotográfico"
      case Nature => "Fondo Naturaleza/Bosque"
    }

    static const All: seq<BackgroundOption> :=
      [BackgroundOption.Transparent, BackgroundOption.White, BackgroundOption.Black,
       BackgroundOption.Green, BackgroundOption.Cyberpunk, BackgroundOption.Studio,
       BackgroundOption.Nature]

    static const LabelOf: BackgroundOption -> string := (x: BackgroundOption) => x.Label()

    static function FromLabel(name: string): (r: Option<BackgroundOption>)
      ensures r.Some? ==> r.value.Label() == name
    {
      FirstWithLabel(All, LabelOf, name)
    }
  }

  /** The emotion an emote expresses. */
  datatype EmoteEmotion =
    | Hype | Angry | Sad | Laughing | Cool | Love | Shocked
  {
    function Label(): string
    {
      match this
      case Hype => "Hype / Emocionado"
      case Angry => "Enojado / Rage"
      case Sad => "Triste / Cry"
      case Laughing => "Risa / LUL"
      case Cool => "Cool / Gafas de sol"
      case Love => "Amor / Corazones"
      case Shocked => "Sorprendido / Pog"
    }

    static const All: seq<EmoteEmotion> :=
      [EmoteEmotion.Hype, EmoteEmotion.Angry, EmoteEmotion.Sad, EmoteEmotion.Laughing,
       EmoteEmotion.Cool, EmoteEmotion.Love, EmoteEmotion.Shocked]

    static const LabelOf: EmoteEmotion -> string := (x: EmoteEmotion) => x.Label()

    static function FromLabel(name: string): (r: Option<EmoteEmotion>)
      ensures r.Some? ==> r.value.Label() == name
    {
      FirstWithLabel(All, LabelOf, name)
    }
  }

  /** An emote request: free text, style, emotion and the image (possibly a data URI). */
  datatype GenerationConfig = GenerationConfig(
    prompt: string, style: EmoteStyle, emotion: EmoteEmotion, imageBase64: string)

  /** A portrait request: free text, style and image. */
  datatype PortraitConfig = PortraitConfig(prompt: string, style: PortraitStyle, imageBase64: string)

  /** A background-removal request: free text, background and image. */
  datatype RemoveBgConfig = RemoveBgConfig(prompt: string, background: BackgroundOption, imageBase64: string)

  /** The first of `candidates` whose label is `name`, or `None` when no candidate carries it. */
  function FirstWithLabel<T>(candidates: seq<T>, labelOf: T -> string, name: string): (r: Option<T>)
    ensures r.Some? ==> r.value in candidates && labelOf(r.value) == name
    ensures r.None? <==> forall k :: 0 <= k < |candidates| ==> labelOf(candidates[k]) != name
  {
    if |candidates| == 0 then None
    else if labelOf(candidates[0]) == name then Some(candidates[0])
    else FirstWithLabel(candidates[1..], labelOf, name)
  }

  /** No member is listed twice. */
  ghost predicate Distinct<T>(xs: seq<T>)
  {
    forall i, j :: 0 <= i < j < |xs| ==> xs[i] != xs[j]
  }

  /** When no two candidates share a label, looking up a candidate's label finds that candidate. */
  lemma {:induction false} FirstWithLabelFinds<T>(candidates: seq<T>, labelOf: T -> string, x: T)
    requires x in candidates
    requires forall i, j :: 0 <= i < j < |candidates| ==> labelOf(candidates[i]) != labelOf(candidates[j])
    ensures FirstWithLabel(candidates, labelOf, labelOf(x)) == Some(x)
  {
    if candidates[0] != x {
      var k :| 0 <= k < |candidates| && candidates[k] == x;
      assert labelOf(candidates[0]) != labelOf(candidates[k]);
      assert candidates[1..][k - 1] == x;
      FirstWithLabelFinds(candidates[1..], labelOf, x);
    }
  }

  /**
   * For a complete catalogue with injective labels, the label cast inverts the
   * label table, and it fails exactly on strings that are no member's label.
   */
  lemma LabelCastInverts<T(!new)>(all: seq<T>, labelOf: T -> string)
    requires Distinct(all)
    requires forall x: T :: x in all
    requires forall x: T, y: T :: labelOf(x) == labelOf(y) ==> x == y
    ensures forall x: T :: FirstWithLabel(all, labelOf, labelOf(x)) == Some(x)
    ensures forall name :: FirstWithLabel(all, labelOf, name).None? <==> forall x: T :: labelOf(x) != name
  {
    forall x: T ensures FirstWithLabel(all, labelOf, labelOf(x)) == Some(x) {
      FirstWithLabelFinds(all, labelOf, x);
    }
  }

  /**
   * Length and first letter of a portrait style's label: the labels already
   * differ in these, which keeps the proof that they are distinct small.
   * The numbers are facts about the labels, checked by PortraitLabelKeyOfLabel;
   * they serve only as keys for proving the labels distinct.
   */
  function PortraitLabelKey(s: PortraitStyle): (int, char)
  {
    match s
    case NoStyle => (23, 'N')
    case Disney3D => (22, 'E')
    case Anime => (19, 'A')
    case Gta => (29, 'E')
    case Simpsons => (26, 'E')
    case Ghibli => (20, 'E')
    case Chibi => (14, 'C')
    case Manga => (20, 'M')
    case Comic => (23, 'C')
    case PixelArt => (15, 'P')
    case Vector => (20, 'A')
    case FlatDesign => (23, 'F')
    case Childlike => (24, 'C')
    case Fantasy => (18, 'F')
    case ConceptArt => (22, 'C')
    case Cyberpunk => (19, 'C')
    case Sketch => (24, 'B')
    case OilPainting => (23, 'P')
  }

  lemma PortraitLabelKeyOfLabel(s: PortraitStyle)
    ensures PortraitLabelKey(s) == (|s.Label()|, s.Label()[0])
  {
  }

  lemma PortraitLabelKeyInjective(s: PortraitStyle, t: PortraitStyle)
    requires PortraitLabelKey(s) == PortraitLabelKey(t)
    ensures s == t
  {
  }

  /** Distinct emote styles carry distinct labels. */
  lemma EmoteStyleLabelInjective(s: EmoteStyle, t: EmoteStyle)
    requires s.Label() == t.Label()
    ensures s == t
  {
    assert |s.Label()| == |t.Label()| && s.Label()[0] == t.Label()[0];
  }

  /**
   * The emote style catalogue lists six members, each once; the label cast inverts
   * the label table and rejects exactly the strings that are no member's label.
   */
  lemma EmoteStyleCatalogue()
    ensures |EmoteStyle.All| == 6 && Distinct(EmoteStyle.All)
    ensures forall s: EmoteStyle :: s in EmoteStyle.All
    ensures forall s: EmoteStyle :: EmoteStyle.FromLabel(s.Label()) == Some(s)
    ensures forall name :: EmoteStyle.FromLabel(name).None? <==> forall s: EmoteStyle :: s.Label() != name
    ensures EmoteStyle.NoStyle.Label() == "Ninguno / Personalizado"
  {
    forall s: EmoteStyle ensures s in EmoteStyle.All {
      match s
      case NoStyle =>
      case Cartoon =>
      case PixelArt =>
      case Anime =>
      case Realistic =>
      case Meme =>
    }
    forall s: EmoteStyle, t: EmoteStyle | EmoteStyle.LabelOf(s) == EmoteStyle.LabelOf(t) ensures s == t {
      EmoteStyleLabelInjective(s, t);
    }
    LabelCastInverts(EmoteStyle.All, EmoteStyle.LabelOf);
  }

  /** Distinct portrait styles carry distinct labels. */
  lemma PortraitStyleLabelInjective(s: PortraitStyle, t: PortraitStyle)
    requires s.Label() == t.Label()
    ensures s == t
  {
    PortraitLabelKeyOfLabel(s);
    PortraitLabelKeyOfLabel(t);
    PortraitLabelKeyInjective(s, t);
  }

  /**
   * The portrait style catalogue lists eighteen members, each once; the label cast inverts
   * the label table and rejects exactly the strings that are no member's label.
   */
  lemma PortraitStyleCatalogue()
    ensures |PortraitStyle.All| == 18 && Distinct(PortraitStyle.All)
    ensures forall s: PortraitStyle :: s in PortraitStyle.All
    ensures forall s: PortraitStyle :: PortraitStyle.FromLabel(s.Label()) == Some(s)
    ensures forall name :: PortraitStyle.FromLabel(name).None? <==> forall s: PortraitStyle :: s.Label() != name
    ensures PortraitStyle.NoStyle.Label() == EmoteStyle.NoStyle.Label()
  {
    forall s: PortraitStyle ensures s in PortraitStyle.All {
      match s
      case NoStyle =>
      case Disney3D =>
      case Anime =>
      case Gta =>
      case Simpsons =>
      case Ghibli =>
      case Chibi =>
      case Manga =>
      case Comic =>
      case PixelArt =>
      case Vector =>
      case FlatDesign =>
      case Childlike =>
      case Fantasy =>
      case ConceptArt =>
      case Cyberpunk =>
      case Sketch =>
      case OilPainting =>
    }
    forall s: PortraitStyle, t: PortraitStyle | PortraitStyle.LabelOf(s) == PortraitStyle.LabelOf(t) ensures s == t {
      PortraitStyleLabelInjective(s, t);
    }
    LabelCastInverts(PortraitStyle.All, PortraitStyle.LabelOf);
  }

  /** Distinct background options carry distinct labels. */
  lemma BackgroundOptionLabelInjective(b: BackgroundOption, c: BackgroundOption)
    requires b.Label() == c.Label()
    ensures b == c
  {
    assert |b.Label()| == |c.Label()| && b.Label()[0] == c.Label()[0];
  }

  /**
   * The background option catalogue lists seven members, each once; the label cast inverts
   * the label table and rejects exactly the strings that are no member's label.
   */
  lemma BackgroundOptionCatalogue()
    ensures |BackgroundOption.All| == 7 && Distinct(BackgroundOption.All)
    ensures forall b: BackgroundOption :: b in BackgroundOption.All
    ensures forall b: BackgroundOption :: BackgroundOption.FromLabel(b.Label()) == Some(b)
    ensures forall name :: BackgroundOption.FromLabel(name).None? <==> forall b: BackgroundOption :: b.Label() != name
  {
    forall b: BackgroundOption ensures b in BackgroundOption.All {
      match b
      case Transparent =>
      case White =>
      case Black =>
      case Green =>
      case Cyberpunk =>
      case Studio =>
      case Nature =>
    }
    forall b: BackgroundOption, c: BackgroundOption | BackgroundOption.LabelOf(b) == BackgroundOption.LabelOf(c) ensures b == c {
      BackgroundOptionLabelInjective(b, c);
    }
    LabelCastInverts(BackgroundOption.All, BackgroundOption.LabelOf);
  }

  /** Distinct emotions carry distinct labels. */
  lemma EmoteEmotionLabelInjective(e: EmoteEmotion, f: EmoteEmotion)
    requires e.Label() == f.Label()
    ensures e == f
  {
    assert |e.Label()| == |f.Label()| && e.Label()[0] == f.Label()[0];
  }

  /**
   * The emotion catalogue lists seven members, each once; the label cast inverts
   * the label table and rejects exactly the strings that are no member's label.
   */
  lemma EmoteEmotionCatalogue()
    ensures |EmoteEmotion.All| == 7 && Distinct(EmoteEmotion.All)
    ensures forall e: EmoteEmotion :: e in EmoteEmotion.All
    ensures forall e: EmoteEmotion :: EmoteEmotion.FromLabel(e.Label()) == Some(e)
    ensures forall name :: EmoteEmotion.FromLabel(name).None? <==> forall e: EmoteEmotion :: e.Label() != name
  {
    forall e: EmoteEmotion ensures e in EmoteEmotion.All {
      match e
      case Hype =>
      case Angry =>
      case Sad =>
      case Laughing =>
      case Cool =>
      case Love =>
      case Shocked =>
    }
    forall e: EmoteEmotion, f: EmoteEmotion | EmoteEmotion.LabelOf(e) == EmoteEmotion.LabelOf(f) ensures e == f {
      EmoteEmotionLabelInjective(e, f);
    }
    LabelCastInverts(EmoteEmotion.All, EmoteEmotion.LabelOf);
  }

}
