/**
 * The battle overlay's helpers: which creature stands for a piece, where its sprite and its cry
 * are fetched from, and the effectiveness line the overlay prints. A battle payload carries the
 * piece type and colour as free strings, so these helpers take the one-letter codes as strings
 * and cope with values outside the known ones.
 */
module BattleOverlay {
  import opened Wrappers
  import opened Text

  /** The creature number `POKEMON_MAP[color][type]` stands for, when the table has one. */
  function PokemonMap(color: string, kind: string): (id: Option<nat>)
    ensures id.Some? <==> color in {"w", "b"} && kind in {"p", "r", "n", "b", "q", "k"}
    ensures id.Some? ==> id.value > 0
  {
    if color == "w" then
      if kind == "p" then Some(624)
      else if kind == "r" then Some(411)
      else if kind == "n" then Some(475)
      else if kind == "b" then Some(65)
      else if kind == "q" then Some(282)
      else if kind == "k" then Some(199)
      else None
    else if color == "b" then
      if kind == "p" then Some(624)
      else if kind == "r" then Some(306)
      else if kind == "n" then Some(647)
      else if kind == "b" then Some(576)
      else if kind == "q" then Some(31)
      else if kind == "k" then Some(34)
      else None
    else None
  }

  /** The creature the overlay shows: the table's, except that an evolved queen (a promoted pawn)
      is number 26 for white and 53 for any other colour. */
  function PokemonId(kind: string, color: string, evolved: bool): (id: Option<nat>)
    ensures evolved && kind == "q" ==> id == Some(if color == "w" then 26 else 53)
    ensures !(evolved && kind == "q") ==> id == PokemonMap(color, kind)
    ensures id.Some? ==> id.value > 0
  {
    if evolved && kind == "q" then Some(if color == "w" then 26 else 53) else PokemonMap(color, kind)
  }

  /** An unknown type or colour has no creature (and so no URL), unless it is an evolved queen. */
  lemma UnknownHasNoCreature(kind: string, color: string, evolved: bool)
    requires !(evolved && kind == "q")
    requires color !in {"w", "b"} || kind !in {"p", "r", "n", "b", "q", "k"}
    ensures PokemonId(kind, color, evolved).None?
    ensures SpriteUrl(kind, color, true, evolved) == "" && SpriteUrl(kind, color, false, evolved) == ""
    ensures CryUrl(kind, color, evolved) == ""
  {
  }

  const SpriteBase: string := "https://raw.githubusercontent.com/PokeAPI/sprites/master/sprites/pokemon/"
  const CryBase: string := "https://raw.githubusercontent.com/PokeAPI/cries/main/cries/pokemon/latest/"

  /** The part of a sprite URL after the common prefix. */
  function SpritePath(id: nat, isAttacker: bool): string {
    (if isAttacker then "back/" else "") + Decimal(id) + ".png"
  }

  /** `getSpriteUrl`: the back sprite for the attacker, the front sprite for the defender. */
  function SpriteUrl(kind: string, color: string, isAttacker: bool, evolved: bool): (url: string)
    ensures url == "" <==> PokemonId(kind, color, evolved).None?
    ensures url != "" ==> StartsWith(url, SpriteBase)
  {
    match PokemonId(kind, color, evolved)
    case None => ""
    case Some(id) => SpriteBase + SpritePath(id, isAttacker)
  }

  /** The attacker is drawn from its back sprite, the defender from its front sprite: after the
      common prefix the URL continues with "back/" exactly for the attacker. */
  lemma SpriteSide(kind: string, color: string, isAttacker: bool, evolved: bool)
    requires PokemonId(kind, color, evolved).Some?
    ensures var path := SpritePath(PokemonId(kind, color, evolved).value, isAttacker);
              SpriteUrl(kind, color, isAttacker, evolved) == SpriteBase + path &&
              (StartsWith(path, "back/") <==> isAttacker)
  {
    var id := PokemonId(kind, color, evolved).value;
    var path := SpritePath(id, isAttacker);
    if !isAttacker {
      assert path[0] == Decimal(id)[0];
      assert IsDigit(Decimal(id)[0]);
    }
  }

  /** `getCryUrl`. */
  function CryUrl(kind: string, color: string, evolved: bool): (url: string)
    ensures url == "" <==> PokemonId(kind, color, evolved).None?
    ensures url != "" ==> StartsWith(url, CryBase)
  {
    match PokemonId(kind, color, evolved)
    case None => ""
    case Some(id) => CryBase + Decimal(id) + ".ogg"
  }

  /** A sprite path names its side and its creature. */
  lemma SpritePathInjective(id: nat, a: bool, id': nat, a': bool)
    requires SpritePath(id, a) == SpritePath(id', a')
    ensures a == a' && id == id'
  {
    var t := SpritePath(id, a);
    // a back sprite's path starts with "back/", a front sprite's with a digit
    assert !a ==> t[0] == Decimal(id)[0];
    assert !a' ==> t[0] == Decimal(id')[0];
    assert IsDigit(Decimal(id)[0]) && IsDigit(Decimal(id')[0]);
    var skip := if a then 5 else 0;
    assert t[skip..|t| - 4] == Decimal(id);
    assert t[skip..|t| - 4] == Decimal(id');
    DecimalInjective(id, id');
  }

  /** A sprite URL names its side and its creature: two equal non-empty sprite URLs are for the same
      side (back or front) and the same creature. */
  lemma SpriteUrlDetermines(kind: string, color: string, attacker: bool, evolved: bool,
                            kind': string, color': string, attacker': bool, evolved': bool)
    requires SpriteUrl(kind, color, attacker, evolved) == SpriteUrl(kind', color', attacker', evolved') != ""
    ensures attacker == attacker'
    ensures PokemonId(kind, color, evolved) == PokemonId(kind', color', evolved')
  {
    var url := SpriteUrl(kind, color, attacker, evolved);
    var id, id' := PokemonId(kind, color, evolved).value, PokemonId(kind', color', evolved').value;
    assert url[|SpriteBase|..] == SpritePath(id, attacker);
    assert url[|SpriteBase|..] == SpritePath(id', attacker');
    SpritePathInjective(id, attacker, id', attacker');
  }

  /** A cry URL names its creature. */
  lemma CryUrlDetermines(kind: string, color: string, evolved: bool, kind': string, color': string, evolved': bool)
    requires CryUrl(kind, color, evolved) == CryUrl(kind', color', evolved') != ""
    ensures PokemonId(kind, color, evolved) == PokemonId(kind', color', evolved')
  {
    var url := CryUrl(kind, color, evolved);
    var id, id' := PokemonId(kind, color, evolved).value, PokemonId(kind', color', evolved').value;
    assert url[|CryBase|..|url| - 4] == Decimal(id);
    assert url[|CryBase|..|url| - 4] == Decimal(id');
    DecimalInjective(id, id');
  }

  const SuperEffective: string := "It's super effective!"
  const NotVeryEffective: string := "It's not very effective..."

  /** `getEffectiveness`: white's bishop, queen and king beat black's bishop, queen and king, and
      white's knight is weak against a rook; black's bishop beats b, q and k, and black's queen,
      king and rook beat a knight. The defender's colour is never consulted. */
  function Effectiveness(attackerColor: string, attackerType: string, defenderColor: string,
                         defenderType: string): (line: string)
    ensures line in {SuperEffective, NotVeryEffective, ""}
    ensures line == SuperEffective <==>
              if attackerColor == "w" then attackerType in {"b", "q", "k"} && defenderType in {"b", "q", "k"}
              else (attackerType == "b" && defenderType in {"b", "q", "k"}) ||
                   (attackerType in {"q", "k", "r"} && defenderType == "n")
    ensures line == NotVeryEffective <==> attackerColor == "w" && attackerType == "n" && defenderType == "r"
  {
    if attackerColor == "w" then
      if attackerType in ["b", "q", "k"] && defenderType in ["b", "q", "k"] then SuperEffective
      else if attackerType == "n" && defenderType == "r" then NotVeryEffective
      else ""
    else
      if attackerType == "b" && defenderType in ["b", "q", "k"] then SuperEffective
      else if attackerType in ["q", "k", "r"] && defenderType == "n" then SuperEffective
      else ""
  }

  /** The effectiveness line depends on the attacker's colour and the two types only. */
  lemma EffectivenessIgnoresDefenderColor(ac: string, at: string, dc: string, dc': string, dt: string)
    ensures Effectiveness(ac, at, dc, dt) == Effectiveness(ac, at, dc', dt)
  {
  }
}
