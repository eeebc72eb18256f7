/**
 * The instruction composers: one pure function per mode that turns the
 * selected options and the user's free text into the instruction sent to the
 * generation service, together with the two lookup tables they consult.
 *
 * Each instruction is the concatenation of a list of segments: fixed text
 * fragments, option labels, table entries and the user's text, inserted
 * verbatim. The fragments reproduce the program's template literals,
 * including their line breaks and indentation.
 */
module Prompts {
  import opened Text
  import opened Types

  /** Line break plus the indentation the templates carry. */
  const Indent := "\n      "

  // ---------------------------------------------------------------------
  // Emote instructions

  const EmoteIntro := "\n      Actúa como un diseñador gráfico experto en Twitch.\n      Transforma la imagen de referencia adjunta en un Emote de Twitch profesional.\n      \n      Detalles del pedido:\n      - Instrucción de Estilo: "
  const EmotionLine := "\n      - Emoción solicitada: "
  const ExtraLine := "\n      - Instrucciones extra del usuario: "
  const CriticalHeader := "\n\n      Requisitos técnicos CRÍTICOS:\n      "
  const EmoteOutro := "\n      \n      Genera solo la imagen del emote final.\n    "

  /** Style instruction of the sentinel branch: keep the original visual medium. */
  const PreserveStyleInstruction :=
    "MANTÉN EL ESTILO VISUAL EXACTO DE LA IMAGEN ORIGINAL. Si es una fotografía, que siga pareciendo una fotografía. Si es un dibujo, mantén ese estilo. NO apliques filtros de 'cartoon' o 'vector' a menos que se pida en las instrucciones extra."

  /** Style instruction of the stylised branch, followed by the style's label. */
  const StrongStylePrefix := "Aplica fuertemente el estilo artístico: "

  // Requirements of the sentinel branch.
  const CropRule := "1. Recorte (Crop): Haz zoom agresivo en la cara o sujeto principal para maximizar el espacio en el lienzo cuadrado."
  const ReplaceBackgroundRule :=
    "2. Fondo: Elimina el fondo original y sustitúyelo por transparencia o un color sólido vibrante solo si mejora la visibilidad."
  const NaturalExpressionHead := "3. Expresión: Modifica la cara para reflejar la emoción '"
  const NaturalExpressionTail :=
    "' de forma natural (photobashing style), sin romper el realismo o estilo original de la imagen."
  const LegibilityRule :=
    "4. Legibilidad: Aumenta el contraste y brillo para que se entienda bien en tamaño pequeño (28px)."

  // Requirements of the stylised branch.
  const FlatColourRule :=
    "1. Estilo Visual: Simplifica los detalles, usa líneas gruesas y colores planos (estilo sticker/vector)."
  const SolidBackgroundRule := "2. Fondo: Sólido o transparente, limpio."
  const BigHeadRule :=
    "3. Composición: Cabeza grande, cuerpo pequeño o inexistente. Zoom máximo en la expresión."
  const ExaggeratedExpressionHead := "4. Expresión: Exagerada y caricaturesca para la emoción '"
  const ExaggeratedExpressionTail := "'."

  /** The closing requirement shared by both branches. */
  const NoSmallTextRule := "5. No incluyas texto pequeño."

  function NaturalExpressionRule(emotion: EmoteEmotion): string
  {
    NaturalExpressionHead + emotion.Label() + NaturalExpressionTail
  }

  function ExaggeratedExpressionRule(emotion: EmoteEmotion): string
  {
    ExaggeratedExpressionHead + emotion.Label() + ExaggeratedExpressionTail
  }

  /** The sentinel keeps the image's own look; any other style is applied by name. */
  function EmoteStyleInstruction(style: EmoteStyle): string
  {
    if style == EmoteStyle.NoStyle then PreserveStyleInstruction
    else StrongStylePrefix + style.Label()
  }

  /** The four numbered technical requirements of the chosen branch, each on its own line. */
  function RequirementSegments(style: EmoteStyle, emotion: EmoteEmotion): seq<string>
  {
    if style == EmoteStyle.NoStyle then
      [Indent, CropRule, Indent, ReplaceBackgroundRule,
       Indent, NaturalExpressionRule(emotion), Indent, LegibilityRule]
    else
      [Indent, FlatColourRule, Indent, SolidBackgroundRule,
       Indent, BigHeadRule, Indent, ExaggeratedExpressionRule(emotion)]
  }

  function EmoteTechnicalRequirements(style: EmoteStyle, emotion: EmoteEmotion): string
  {
    Concat(RequirementSegments(style, emotion))
  }

  function EmoteSegments(config: GenerationConfig): seq<string>
  {
    [EmoteIntro, EmoteStyleInstruction(config.style),
     EmotionLine, config.emotion.Label(),
     ExtraLine, config.prompt,
     CriticalHeader, EmoteTechnicalRequirements(config.style, config.emotion),
     Indent, NoSmallTextRule, EmoteOutro]
  }

  /** The instruction `generateEmote` sends. */
  function EmotePrompt(config: GenerationConfig): string
  {
    Concat(EmoteSegments(config))
  }

  // ---------------------------------------------------------------------
  // Portrait instructions

  const PortraitIntro :=
    "\n      Actúa como un artista digital profesional de clase mundial.\n      Tu tarea es transformar la foto proporcionada en una ilustración artística de alta calidad (\"Tu versión dibujo\").\n      \n      Estilo solicitado: "
  const PortraitExtraLine := "\n      Instrucciones adicionales: "
  const StyleHeader := "\n\n      Instrucciones de Estilo Específicas:\n      "
  const GeneralHeader := "\n\n      Requisitos Generales:"
  const PortraitOutro := "\n      \n      Genera solo la ilustración.\n    "

  const KeepIdentityRule :=
    "1. Mantén los rasgos faciales clave y la identidad de la persona, pero adáptalos completamente al estilo artístico elegido (si se eligió uno)."
  const AvatarCompositionRule :=
    "2. La composición debe ser estéticamente agradable, adecuada para una foto de perfil o avatar."
  const LightingRule := "3. Iluminación y colores de alta calidad profesional."
  /** Emitted whatever style is selected. */
  const GtaRule := "4. Si es estilo GTA, usa el clásico sombreado cel-shading y bordes definidos."
  /** Emitted whatever style is selected. */
  const DisneyRule :=
    "5. Si es estilo Disney/Pixar, usa renderizado 3D suave, ojos expresivos y cálida iluminación."

  /** Fallback block for the styles without a table entry. */
  const GenericStyleInstruction :=
    "Asegúrate de que el estilo artístico sea muy evidente, estilizado y de alta calidad."

  // The dedicated style blocks.
  const KeepOriginalStyleBlock :=
    "No apliques un filtro de estilo predefinido. Sigue estrictamente las instrucciones adicionales del usuario para definir el estilo visual. Si el usuario no especifica estilo en el texto, mejora la calidad de la imagen original manteniéndola realista o fiel a su origen, pero con un acabado artístico de alta gama."
  const GtaStyleBlock :=
    "Usa el estilo de arte de pantalla de carga de Grand Theft Auto. Sombreado duro, colores saturados, contornos negros definidos, vibra cool y peligrosa."
  const Disney3DStyleBlock :=
    "Estilo de película de animación 3D moderna (Pixar/Disney). Texturas suaves, iluminación cinemática, ojos grandes y expresivos, adorable."
  const SimpsonsStyleBlock :=
    "Estilo de dibujos animados de Los Simpsons. Piel amarilla, ojos grandes circulares, contornos simples, estilo Matt Groening."
  const AnimeStyleBlock :=
    "Estilo Anime japonés de alta calidad. Ojos detallados, cabello estilizado, efectos dramáticos de luz, estilo Shonen o Shojo moderno."
  const GhibliStyleBlock :=
    "Estilo Studio Ghibli (Hayao Miyazaki). Colores vibrantes pero naturales, fondos detallados pintados a mano, personajes con rasgos suaves y expresivos, atmósfera mágica y nostálgica."
  const ChibiStyleBlock :=
    "Estilo Chibi/Kawaii. Cabezas grandes (deformed), cuerpos pequeños, ojos enormes y brillantes, mejillas sonrojadas, extremadamente tierno y simplificado."
  const MangaStyleBlock :=
    "Estilo Manga tradicional japonés. Blanco y negro, uso de tramas (screentones), entintado dinámico, alto contraste, estilo cómic impreso."
  const PixelArtStyleBlock :=
    "Pixel Art de alta calidad. Estilo retro de videojuegos de 16-bits, paleta de colores limitada, sombreado dithered."
  const VectorStyleBlock :=
    "Arte Vectorial limpio. Líneas nítidas, formas geométricas definidas, colores sólidos vibrantes, sin degradados complejos, estilo Adobe Illustrator."
  const FlatDesignStyleBlock :=
    "Flat Design moderno. Minimalista, bidimensional, colores sólidos brillantes, formas simplificadas, sin texturas ni sombras complejas, estilo corporativo tech."
  const ChildlikeStyleBlock :=
    "Ilustración de libro de cuentos infantil. Estilo dibujo con crayón, acuarela suave o lápiz de color, trazos inocentes, colores pasteles, soñador y caprichoso."
  const FantasyStyleBlock :=
    "Arte de Fantasía Épica. Estilo Dungeons & Dragons o Magic The Gathering. Iluminación mágica, armaduras detalladas, atmósfera etérea y heroica."
  const ConceptArtStyleBlock :=
    "Concept Art para videojuegos AAA. Pinceladas digitales visibles pero detalladas (digital painting), iluminación dramática, diseño de personajes fuerte, fondo atmosférico."

  /** The per-style instruction block; four styles have no entry and get the fallback. */
  function StyleInstructions(style: PortraitStyle): string
  {
    match style
    case NoStyle => KeepOriginalStyleBlock
    case Gta => GtaStyleBlock
    case Disney3D => Disney3DStyleBlock
    case Simpsons => SimpsonsStyleBlock
    case Anime => AnimeStyleBlock
    case Ghibli => GhibliStyleBlock
    case Chibi => ChibiStyleBlock
    case Manga => MangaStyleBlock
    case PixelArt => PixelArtStyleBlock
    case Vector => VectorStyleBlock
    case FlatDesign => FlatDesignStyleBlock
    case Childlike => ChildlikeStyleBlock
    case Fantasy => FantasyStyleBlock
    case ConceptArt => ConceptArtStyleBlock
    case _ => GenericStyleInstruction
  }

  /** The five general requirements, each on its own line; the same for every style. */
  const PortraitRequirementSegments: seq<string> :=
    [Indent, KeepIdentityRule, Indent, AvatarCompositionRule, Indent, LightingRule,
     Indent, GtaRule, Indent, DisneyRule]

  const PortraitRequirements := Concat(PortraitRequirementSegments)

  function PortraitSegments(config: PortraitConfig): seq<string>
  {
    [PortraitIntro, config.style.Label(),
     PortraitExtraLine, config.prompt,
     StyleHeader, StyleInstructions(config.style),
     GeneralHeader, PortraitRequirements,
     PortraitOutro]
  }

  /** The instruction `generatePortrait` sends. */
  function PortraitPrompt(config: PortraitConfig): string
  {
    Concat(PortraitSegments(config))
  }

  // ---------------------------------------------------------------------
  // Background-removal instructions

  const BackgroundIntro :=
    "\n      Actúa como un editor de fotos experto con herramientas de IA.\n      Tu tarea es AISLAR AL SUJETO PRINCIPAL (Persona, Mascota u Objeto) de la imagen y colocarlo sobre un nuevo fondo.\n      \n      Configuración de Fondo: "
  const BackgroundExtraLine := "\n      Instrucciones Adicionales: "
  const StrictRulesHeader := "\n\n      REGLAS ESTRICTAS:"
  const BackgroundOutro := "\n\n      Genera la imagen con el sujeto aislado en el fondo solicitado.\n    "

  const IdenticalSubjectRule :=
    "1. IDENTIDAD: El sujeto principal debe verse IDÉNTICO al original. NO lo caricaturices ni cambies su estilo artístico. Mantén el fotorrealismo si es una foto."
  const CleanEdgesRule := "2. RECORTES: Los bordes del sujeto deben ser limpios y precisos."
  const AdaptLightingRule :=
    "3. ILUMINACIÓN: Ajusta sutilmente la iluminación del sujeto para que encaje mejor con el nuevo fondo solicitado, pero sin perder su esencia."
  const UtilityBackgroundRule :=
    "4. Si se pide Transparente/Verde/Blanco: El objetivo es la utilidad (sticker/png)."
  const ArtisticBackgroundRule :=
    "5. Si se pide un fondo artístico (Cyberpunk, Naturaleza): Integra al sujeto de forma realista en el entorno."

  /** Fallback description for a value that is no member of the catalogue. */
  const GenericBackgroundInstruction := "Fondo limpio y sólido que resalte al sujeto."

  // The descriptions of the background options.
  const TransparentDescription :=
    "Fondo TOTALMENTE TRANSPARENTE o Blanco Puro si no puedes generar alpha. Prioriza aislar el objeto perfectamente."
  const WhiteDescription :=
    "Fondo BLANCO PURO (Hex #FFFFFF). Estilo fotografía de producto o carnet."
  const BlackDescription :=
    "Fondo NEGRO PURO (Hex #000000). Estilo elegante o dark mode."
  const GreenDescription :=
    "Fondo VERDE CHROMA KEY (Hex #00FF00). Verde brillante plano para facilitar la edición de video."
  const CyberpunkDescription :=
    "Fondo Urbano Futurista estilo Cyberpunk. Luces de neón, noche lluviosa, desenfoque bokeh."
  const StudioDescription :=
    "Fondo de Estudio Fotográfico Profesional. Gris neutro con iluminación de tres puntos suave."
  const NatureDescription :=
    "Fondo de Bosque Natural o Paisaje suavemente desenfocado para resaltar al sujeto."

  /** The fixed description of each background option. */
  function BackgroundInstruction(option: BackgroundOption): string
  {
    match option
    case Transparent => TransparentDescription
    case White => WhiteDescription
    case Black => BlackDescription
    case Green => GreenDescription
    case Cyberpunk => CyberpunkDescription
    case Studio => StudioDescription
    case Nature => NatureDescription
  }

  /**
   * The lookup as the program performs it at run time, on the option's
   * string value: a value outside the catalogue falls through to the generic
   * description.
   */
  function BackgroundInstructionForValue(value: string): string
  {
    match BackgroundOption.FromLabel(value)
    case Some(option) => BackgroundInstruction(option)
    case None => GenericBackgroundInstruction
  }

  /** The five strict rules, each on its own line; the same for every option. */
  const StrictRuleSegments: seq<string> :=
    [Indent, IdenticalSubjectRule, Indent, CleanEdgesRule, Indent, AdaptLightingRule,
     Indent, UtilityBackgroundRule, Indent, ArtisticBackgroundRule]

  const StrictRules := Concat(StrictRuleSegments)

  function BackgroundSegments(config: RemoveBgConfig): seq<string>
  {
    [BackgroundIntro, BackgroundInstruction(config.background),
     BackgroundExtraLine, config.prompt,
     StrictRulesHeader, StrictRules,
     BackgroundOutro]
  }

  /** The instruction `removeBackground` sends. */
  function BackgroundPrompt(config: RemoveBgConfig): string
  {
    Concat(BackgroundSegments(config))
  }

  // ---------------------------------------------------------------------
  // Properties of the emote instruction

  /** The emotion's label, the user's text and the no-small-text rule always appear. */
  lemma EmotePromptMentionsRequest(config: GenerationConfig)
    ensures Contains(EmotePrompt(config), config.emotion.Label())
    ensures Contains(EmotePrompt(config), config.prompt)
    ensures Contains(EmotePrompt(config), NoSmallTextRule)
  {
    var segments := EmoteSegments(config);
    ContainsSegment(segments, 3);
    ContainsSegment(segments, 5);
    ContainsSegment(segments, 9);
  }

  /** One of the four numbered requirements is contained in the whole instruction. */
  lemma EmoteRequirementContained(config: GenerationConfig, k: nat)
    requires k < 8
    ensures Contains(EmotePrompt(config), RequirementSegments(config.style, config.emotion)[k])
  {
    var segments := EmoteSegments(config);
    ContainsSegment(segments, 7);
    ContainsSegment(RequirementSegments(config.style, config.emotion), k);
    ContainsTransitive(EmotePrompt(config), segments[7], RequirementSegments(config.style, config.emotion)[k]);
  }

  /**
   * With the sentinel style the instruction keeps the original look, crops
   * to the subject, changes the expression realistically and raises contrast.
   */
  lemma EmoteSentinelBranch(config: GenerationConfig)
    requires config.style == EmoteStyle.NoStyle
    ensures Contains(EmotePrompt(config), PreserveStyleInstruction)
    ensures Contains(EmotePrompt(config), CropRule)
    ensures Contains(EmotePrompt(config), ReplaceBackgroundRule)
    ensures Contains(EmotePrompt(config), NaturalExpressionRule(config.emotion))
    ensures Contains(EmotePrompt(config), LegibilityRule)
  {
    ContainsSegment(EmoteSegments(config), 1);
    EmoteRequirementContained(config, 1);
    EmoteRequirementContained(config, 3);
    EmoteRequirementContained(config, 5);
    EmoteRequirementContained(config, 7);
  }

  /**
   * With any other style the instruction applies the style by its label and
   * asks for flat colours and thick lines, a big head and an exaggerated expression.
   */
  lemma EmoteStylisedBranch(config: GenerationConfig)
    requires config.style != EmoteStyle.NoStyle
    ensures Contains(EmotePrompt(config), StrongStylePrefix + config.style.Label())
    ensures Contains(EmotePrompt(config), config.style.Label())
    ensures Contains(EmotePrompt(config), FlatColourRule)
    ensures Contains(EmotePrompt(config), SolidBackgroundRule)
    ensures Contains(EmotePrompt(config), BigHeadRule)
    ensures Contains(EmotePrompt(config), ExaggeratedExpressionRule(config.emotion))
  {
    ContainsSegment(EmoteSegments(config), 1);
    ContainsSuffix(StrongStylePrefix, config.style.Label());
    ContainsTransitive(EmotePrompt(config), StrongStylePrefix + config.style.Label(), config.style.Label());
    EmoteRequirementContained(config, 1);
    EmoteRequirementContained(config, 3);
    EmoteRequirementContained(config, 5);
    EmoteRequirementContained(config, 7);
  }

  /** The instruction is the introduction, then the style instruction, then the rest. */
  lemma EmotePromptOpening(config: GenerationConfig) returns (rest: string)
    ensures EmotePrompt(config) == EmoteIntro + EmoteStyleInstruction(config.style) + rest
  {
    var segments := EmoteSegments(config);
    rest := Concat(segments[2..]);
    ConcatFirstTwo(segments);
  }

  /**
   * Lengths of the branch texts, checked against the constants; they serve
   * only to show that one branch's text cannot start where the other's does.
   */
  lemma EmoteBranchMeasures()
    ensures |PreserveStyleInstruction| == 239 && |StrongStylePrefix| == 40
    ensures |FlatColourRule| == 103 && |CropRule| == 115
  {
  }

  lemma EmoteStyleLabelShort(style: EmoteStyle)
    ensures |style.Label()| < 30
  {
  }

  /**
   * The preserve-the-original-look branch is taken exactly for the sentinel
   * style, for the style instruction and for the numbered requirements alike.
   */
  lemma EmoteBranchFollowsSentinel(config: GenerationConfig)
    ensures EmoteStyleInstruction(config.style) == PreserveStyleInstruction
        <==> config.style == EmoteStyle.NoStyle
    ensures RequirementSegments(config.style, config.emotion)[1] == CropRule
        <==> config.style == EmoteStyle.NoStyle
  {
    // the stylised instruction and requirement are shorter than the sentinel's
    EmoteBranchMeasures();
    EmoteStyleLabelShort(config.style);
  }

  /** The instruction opens with the branch's style line right after the fixed introduction. */
  lemma EmotePromptOpensWithBranch(config: GenerationConfig)
    ensures config.style == EmoteStyle.NoStyle ==>
              IsPrefix(EmoteIntro + PreserveStyleInstruction, EmotePrompt(config))
    ensures config.style != EmoteStyle.NoStyle ==>
              IsPrefix(EmoteIntro + StrongStylePrefix + config.style.Label(), EmotePrompt(config))
  {
    var rest := EmotePromptOpening(config);
    if config.style != EmoteStyle.NoStyle {
      assert EmoteIntro + StrongStylePrefix + config.style.Label() == EmoteIntro + EmoteStyleInstruction(config.style);
    }
    PrefixOfAppend(EmoteIntro + EmoteStyleInstruction(config.style), rest);
  }

  // ---------------------------------------------------------------------
  // Properties of the portrait instruction and its style table

  /** The styles without an entry of their own in the style table. */
  const FallbackStyles: seq<PortraitStyle> :=
    [PortraitStyle.Comic, PortraitStyle.Cyberpunk, PortraitStyle.Sketch, PortraitStyle.OilPainting]

  /**
   * Length and next-to-last letter of a style block, which already tell the
   * blocks apart. The numbers below are facts about the constants, checked
   * by StyleBlockKeyOfBlock; they serve only as keys for proving the blocks
   * distinct.
   */
  function StyleBlockKey(style: PortraitStyle): (int, char)
  {
    match style
    case NoStyle => (312, 'a')
    case Gta => (150, 'a')
    case Disney3D => (136, 'e')
    case Simpsons => (124, 'g')
    case Anime => (132, 'o')
    case Ghibli => (181, 'a')
    case Chibi => (152, 'o')
    case Manga => (136, 'o')
    case PixelArt => (114, 'd')
    case Vector => (147, 'r')
    case FlatDesign => (158, 'h')
    case Childlike => (158, 'o')
    case Fantasy => (142, 'a')
    case ConceptArt => (170, 'o')
    case _ => (84, 'd')
  }

  lemma StyleBlockMeasuresA()
    ensures |KeepOriginalStyleBlock| == 312 && KeepOriginalStyleBlock[310] == 'a'
    ensures |GtaStyleBlock| == 150 && GtaStyleBlock[148] == 'a'
  {
  }

  lemma StyleBlockMeasuresB()
    ensures |Disney3DStyleBlock| == 136 && Disney3DStyleBlock[134] == 'e'
    ensures |SimpsonsStyleBlock| == 124 && SimpsonsStyleBlock[122] == 'g'
    ensures |AnimeStyleBlock| == 132 && AnimeStyleBlock[130] == 'o'
  {
  }

  lemma StyleBlockMeasuresC()
    ensures |GhibliStyleBlock| == 181 && GhibliStyleBlock[179] == 'a'
    ensures |ChibiStyleBlock| == 152 && ChibiStyleBlock[150] == 'o'
    ensures |MangaStyleBlock| == 136 && MangaStyleBlock[134] == 'o'
  {
  }

  lemma StyleBlockMeasuresD()
    ensures |PixelArtStyleBlock| == 114 && PixelArtStyleBlock[112] == 'd'
    ensures |VectorStyleBlock| == 147 && VectorStyleBlock[145] == 'r'
    ensures |FlatDesignStyleBlock| == 158 && FlatDesignStyleBlock[156] == 'h'
  {
  }

  lemma StyleBlockMeasuresE()
    ensures |ChildlikeStyleBlock| == 158 && ChildlikeStyleBlock[156] == 'o'
    ensures |FantasyStyleBlock| == 142 && FantasyStyleBlock[140] == 'a'
    ensures |ConceptArtStyleBlock| == 170 && ConceptArtStyleBlock[168] == 'o'
    ensures |GenericStyleInstruction| == 84 && GenericStyleInstruction[82] == 'd'
  {
  }

  lemma StyleBlockKeyOfBlock(style: PortraitStyle)
    ensures var block := StyleInstructions(style);
            |block| >= 2 && StyleBlockKey(style) == (|block|, block[|block| - 2])
  {
    match style
    case NoStyle | Gta => StyleBlockMeasuresA();
    case Disney3D | Simpsons | Anime => StyleBlockMeasuresB();
    case Ghibli | Chibi | Manga => StyleBlockMeasuresC();
    case PixelArt | Vector | FlatDesign => StyleBlockMeasuresD();
    case Childlike | Fantasy | ConceptArt | Comic | Cyberpunk | Sketch | OilPainting => StyleBlockMeasuresE();
  }

  lemma StyleBlockKeySeparates(s: PortraitStyle, t: PortraitStyle)
    requires StyleBlockKey(s) == StyleBlockKey(t) && s !in FallbackStyles
    ensures s == t
  {
  }

  lemma StyleBlockDistinct(s: PortraitStyle, t: PortraitStyle)
    requires s !in FallbackStyles && StyleInstructions(s) == StyleInstructions(t)
    ensures s == t
  {
    StyleBlockKeyOfBlock(s);
    StyleBlockKeyOfBlock(t);
    StyleBlockKeySeparates(s, t);
  }

  /**
   * The style table is total: fourteen styles have a block of their own,
   * distinct from every other block, and exactly the four fallback styles get
   * the generic block.
   */
  lemma StyleInstructionsTable()
    ensures forall s: PortraitStyle :: StyleInstructions(s) == GenericStyleInstruction <==> s in FallbackStyles
    ensures forall s: PortraitStyle, t: PortraitStyle ::
              s !in FallbackStyles && StyleInstructions(s) == StyleInstructions(t) ==> s == t
    ensures |FallbackStyles| == 4 && Distinct(FallbackStyles)
  {
    forall s: PortraitStyle, t: PortraitStyle |
      s !in FallbackStyles && StyleInstructions(s) == StyleInstructions(t)
      ensures s == t
    {
      StyleBlockDistinct(s, t);
    }
    forall s: PortraitStyle
      ensures StyleInstructions(s) == GenericStyleInstruction <==> s in FallbackStyles
    {
      if s !in FallbackStyles {
        assert StyleInstructions(s) != StyleInstructions(PortraitStyle.Comic);
      }
    }
  }

  /** Each of the five general portrait requirements ends up in the portrait instruction. */
  lemma PortraitRequirementContained(config: PortraitConfig, k: nat)
    requires k < |PortraitRequirementSegments|
    ensures Contains(PortraitPrompt(config), PortraitRequirementSegments[k])
  {
    var segments := PortraitSegments(config);
    ContainsSegment(segments, 7);
    ContainsSegment(PortraitRequirementSegments, k);
    ContainsTransitive(PortraitPrompt(config), segments[7], PortraitRequirementSegments[k]);
  }

  /**
   * The portrait instruction names the style, carries the user's text and the
   * style's block, and states the general requirements, including the GTA and
   * Disney/Pixar rules, whatever style is selected.
   */
  lemma PortraitPromptMentionsRequest(config: PortraitConfig)
    ensures Contains(PortraitPrompt(config), config.style.Label())
    ensures Contains(PortraitPrompt(config), config.prompt)
    ensures Contains(PortraitPrompt(config), StyleInstructions(config.style))
    ensures Contains(PortraitPrompt(config), KeepIdentityRule)
    ensures Contains(PortraitPrompt(config), AvatarCompositionRule)
    ensures Contains(PortraitPrompt(config), LightingRule)
    ensures Contains(PortraitPrompt(config), GtaRule)
    ensures Contains(PortraitPrompt(config), DisneyRule)
  {
    var segments := PortraitSegments(config);
    ContainsSegment(segments, 1);
    ContainsSegment(segments, 3);
    ContainsSegment(segments, 5);
    PortraitRequirementContained(config, 1);
    PortraitRequirementContained(config, 3);
    PortraitRequirementContained(config, 5);
    PortraitRequirementContained(config, 7);
    PortraitRequirementContained(config, 9);
  }

  // ---------------------------------------------------------------------
  // Properties of the background-removal instruction and its table

  /**
   * Every background option has its own description, never the generic one;
   * looking up a string value gives the option's description for a member's
   * label and the generic description for anything else.
   */
  lemma BackgroundInstructionTable()
    ensures forall b: BackgroundOption :: BackgroundInstruction(b) != GenericBackgroundInstruction
    ensures forall b: BackgroundOption, c: BackgroundOption ::
              BackgroundInstruction(b) == BackgroundInstruction(c) ==> b == c
    ensures forall b: BackgroundOption :: BackgroundInstructionForValue(b.Label()) == BackgroundInstruction(b)
    ensures forall value :: BackgroundInstructionForValue(value) == GenericBackgroundInstruction
              <==> BackgroundOption.FromLabel(value).None?
  {
    BackgroundOptionCatalogue();
    forall b: BackgroundOption, c: BackgroundOption ensures
      && BackgroundInstruction(b) != GenericBackgroundInstruction
      && (BackgroundInstruction(b) == BackgroundInstruction(c) ==> b == c)
    {
      // the descriptions all differ in length
      assert |BackgroundInstruction(b)| != |GenericBackgroundInstruction|;
      assert b != c ==> |BackgroundInstruction(b)| != |BackgroundInstruction(c)|;
    }
  }

  /** Each of the five strict rules ends up in the background instruction. */
  lemma StrictRuleContained(config: RemoveBgConfig, k: nat)
    requires k < |StrictRuleSegments|
    ensures Contains(BackgroundPrompt(config), StrictRuleSegments[k])
  {
    var segments := BackgroundSegments(config);
    ContainsSegment(segments, 5);
    ContainsSegment(StrictRuleSegments, k);
    ContainsTransitive(BackgroundPrompt(config), segments[5], StrictRuleSegments[k]);
  }

  /**
   * The background instruction carries the option's description and the
   * user's text, and the same five strict rules whatever option is chosen.
   */
  lemma BackgroundPromptMentionsRequest(config: RemoveBgConfig)
    ensures Contains(BackgroundPrompt(config), BackgroundInstruction(config.background))
    ensures Contains(BackgroundPrompt(config), config.prompt)
    ensures Contains(BackgroundPrompt(config), IdenticalSubjectRule)
    ensures Contains(BackgroundPrompt(config), CleanEdgesRule)
    ensures Contains(BackgroundPrompt(config), AdaptLightingRule)
    ensures Contains(BackgroundPrompt(config), UtilityBackgroundRule)
    ensures Contains(BackgroundPrompt(config), ArtisticBackgroundRule)
  {
    var segments := BackgroundSegments(config);
    ContainsSegment(segments, 1);
    ContainsSegment(segments, 3);
    StrictRuleContained(config, 1);
    StrictRuleContained(config, 3);
    StrictRuleContained(config, 5);
    StrictRuleContained(config, 7);
    StrictRuleContained(config, 9);
  }
}
