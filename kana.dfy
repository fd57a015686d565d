// The kana catalogue: six constant tables and the selection of the active set.

module Kana {

  /** The script selection of the menu; the three named values and, as in the
      source, any other integer (which selects the plain hiragana). */
  type KanaType = int

  const KanaTypeHiragana: KanaType := 0
  const KanaTypeKatakana: KanaType := 1
  const KanaTypeBoth: KanaType := 2

  /** A kana character and its romanization. */
  datatype Kana = Kana(character: string, romaji: string)

  /** The display name of a script selection. */
  function KanaTypeName(k: KanaType): (r: string)
    ensures 0 <= k <= 2 <==> r != "Unknown"
    ensures k == KanaTypeHiragana <==> r == "Hiragana"
    ensures k == KanaTypeKatakana <==> r == "Katakana"
    ensures k == KanaTypeBoth <==> r == "Both"
  {
    if k == KanaTypeHiragana then "Hiragana"
    else if k == KanaTypeKatakana then "Katakana"
    else if k == KanaTypeBoth then "Both"
    else "Unknown"
  }

  /** A romanization the player can type: non-empty, lower-case ASCII letters only. */
  predicate IsRomaji(s: string) {
    |s| > 0 && forall j :: 0 <= j < |s| ==> 'a' <= s[j] <= 'z'
  }

  /** Every romanization of a table is typeable. */
  predicate AllRomaji(ks: seq<Kana>) {
    forall i :: 0 <= i < |ks| ==> IsRomaji(ks[i].romaji)
  }

  // The tables, one constant per row of the kana chart.

  const MainHiraganaARow: seq<Kana> := [Kana("あ", "a"), Kana("い", "i"), Kana("う", "u"), Kana("え", "e"), Kana("お", "o")]
  const MainHiraganaKaRow: seq<Kana> := [Kana("か", "ka"), Kana("き", "ki"), Kana("く", "ku"), Kana("け", "ke"), Kana("こ", "ko")]
  const MainHiraganaSaRow: seq<Kana> := [Kana("さ", "sa"), Kana("し", "shi"), Kana("す", "su"), Kana("せ", "se"), Kana("そ", "so")]
  const MainHiraganaTaRow: seq<Kana> := [Kana("た", "ta"), Kana("ち", "chi"), Kana("つ", "tsu"), Kana("て", "te"), Kana("と", "to")]
  const MainHiraganaNaRow: seq<Kana> := [Kana("な", "na"), Kana("に", "ni"), Kana("ぬ", "nu"), Kana("ね", "ne"), Kana("の", "no")]
  const MainHiraganaHaRow: seq<Kana> := [Kana("は", "ha"), Kana("ひ", "hi"), Kana("ふ", "fu"), Kana("へ", "he"), Kana("ほ", "ho")]
  const MainHiraganaMaRow: seq<Kana> := [Kana("ま", "ma"), Kana("み", "mi"), Kana("む", "mu"), Kana("め", "me"), Kana("も", "mo")]
  const MainHiraganaYaRow: seq<Kana> := [Kana("や", "ya"), Kana("ゆ", "yu"), Kana("よ", "yo")]
  const MainHiraganaRaRow: seq<Kana> := [Kana("ら", "ra"), Kana("り", "ri"), Kana("る", "ru"), Kana("れ", "re"), Kana("ろ", "ro")]
  const MainHiraganaWaRow: seq<Kana> := [Kana("わ", "wa"), Kana("を", "wo"), Kana("ん", "n")]
  const MainHiragana: seq<Kana> :=
    MainHiraganaARow + MainHiraganaKaRow + MainHiraganaSaRow + MainHiraganaTaRow + MainHiraganaNaRow + MainHiraganaHaRow + MainHiraganaMaRow + MainHiraganaYaRow + MainHiraganaRaRow + MainHiraganaWaRow

  const DakutenHiraganaGaRow: seq<Kana> := [Kana("が", "ga"), Kana("ぎ", "gi"), Kana("ぐ", "gu"), Kana("げ", "ge"), Kana("ご", "go")]
  const DakutenHiraganaZaRow: seq<Kana> := [Kana("ざ", "za"), Kana("じ", "ji"), Kana("ず", "zu"), Kana("ぜ", "ze"), Kana("ぞ", "zo")]
  const DakutenHiraganaDaRow: seq<Kana> := [Kana("だ", "da"), Kana("ぢ", "di"), Kana("づ", "du"), Kana("で", "de"), Kana("ど", "do")]
  const DakutenHiraganaBaRow: seq<Kana> := [Kana("ば", "ba"), Kana("び", "bi"), Kana("ぶ", "bu"), Kana("べ", "be"), Kana("ぼ", "bo")]
  const DakutenHiragana: seq<Kana> :=
    DakutenHiraganaGaRow + DakutenHiraganaZaRow + DakutenHiraganaDaRow + DakutenHiraganaBaRow

  const HandakutenHiragana: seq<Kana> := [Kana("ぱ", "pa"), Kana("ぴ", "pi"), Kana("ぷ", "pu"), Kana("ぺ", "pe"), Kana("ぽ", "po")]

  const MainKatakanaARow: seq<Kana> := [Kana("ア", "a"), Kana("イ", "i"), Kana("ウ", "u"), Kana("エ", "e"), Kana("オ", "o")]
  const MainKatakanaKaRow: seq<Kana> := [Kana("カ", "ka"), Kana("キ", "ki"), Kana("ク", "ku"), Kana("ケ", "ke"), Kana("コ", "ko")]
  const MainKatakanaSaRow: seq<Kana> := [Kana("サ", "sa"), Kana("シ", "shi"), Kana("ス", "su"), Kana("セ", "se"), Kana("ソ", "so")]
  const MainKatakanaTaRow: seq<Kana> := [Kana("タ", "ta"), Kana("チ", "chi"), Kana("ツ", "tsu"), Kana("テ", "te"), Kana("ト", "to")]
  const MainKatakanaNaRow: seq<Kana> := [Kana("ナ", "na"), Kana("ニ", "ni"), Kana("ヌ", "nu"), Kana("ネ", "ne"), Kana("ノ", "no")]
  const MainKatakanaHaRow: seq<Kana> := [Kana("ハ", "ha"), Kana("ヒ", "hi"), Kana("フ", "fu"), Kana("ヘ", "he"), Kana("ホ", "ho")]
  const MainKatakanaMaRow: seq<Kana> := [Kana("マ", "ma"), Kana("ミ", "mi"), Kana("ム", "mu"), Kana("メ", "me"), Kana("モ", "mo")]
  const MainKatakanaYaRow: seq<Kana> := [Kana("ヤ", "ya"), Kana("ユ", "yu"), Kana("ヨ", "yo")]
  const MainKatakanaRaRow: seq<Kana> := [Kana("ラ", "ra"), Kana("リ", "ri"), Kana("ル", "ru"), Kana("レ", "re"), Kana("ロ", "ro")]
  const MainKatakanaWaRow: seq<Kana> := [Kana("ワ", "wa"), Kana("ヲ", "wo"), Kana("ン", "n")]
  const MainKatakana: seq<Kana> :=
    MainKatakanaARow + MainKatakanaKaRow + MainKatakanaSaRow + MainKatakanaTaRow + MainKatakanaNaRow + MainKatakanaHaRow + MainKatakanaMaRow + MainKatakanaYaRow + MainKatakanaRaRow + MainKatakanaWaRow

  const DakutenKatakanaGaRow: seq<Kana> := [Kana("ガ", "ga"), Kana("ギ", "gi"), Kana("グ", "gu"), Kana("ゲ", "ge"), Kana("ゴ", "go")]
  const DakutenKatakanaZaRow: seq<Kana> := [Kana("ザ", "za"), Kana("ジ", "ji"), Kana("ズ", "zu"), Kana("ゼ", "ze"), Kana("ゾ", "zo")]
  const DakutenKatakanaDaRow: seq<Kana> := [Kana("ダ", "da"), Kana("ヂ", "di"), Kana("ヅ", "du"), Kana("デ", "de"), Kana("ド", "do")]
  const DakutenKatakanaBaRow: seq<Kana> := [Kana("バ", "ba"), Kana("ビ", "bi"), Kana("ブ", "bu"), Kana("ベ", "be"), Kana("ボ", "bo")]
  const DakutenKatakanaVuRow: seq<Kana> := [Kana("ヴ", "vu")]
  const DakutenKatakana: seq<Kana> :=
    DakutenKatakanaGaRow + DakutenKatakanaZaRow + DakutenKatakanaDaRow + DakutenKatakanaBaRow + DakutenKatakanaVuRow

  const HandakutenKatakana: seq<Kana> := [Kana("パ", "pa"), Kana("ピ", "pi"), Kana("プ", "pu"), Kana("ペ", "pe"), Kana("ポ", "po")]

  /** The number of kana in each selection, tabulated independently of the tables. */
  function KanaSetSize(kanaType: KanaType, includeDakuten: bool): nat {
    if kanaType == KanaTypeHiragana then (if includeDakuten then 71 else 46)
    else if kanaType == KanaTypeKatakana then (if includeDakuten then 72 else 46)
    else if kanaType == KanaTypeBoth then (if includeDakuten then 143 else 92)
    else 46
  }

  /** The kana a session draws from: the main table, then the dakuten and the
      handakuten tables when they are included; hiragana before katakana. */
  function GetKanaSet(kanaType: KanaType, includeDakuten: bool): (r: seq<Kana>)
    ensures |r| == KanaSetSize(kanaType, includeDakuten)
    ensures |r| > 0
    ensures AllRomaji(r)
  {
    TablesAreRomaji();
    AllRomajiConcat(MainHiragana, DakutenHiragana);
    AllRomajiConcat(MainHiragana + DakutenHiragana, HandakutenHiragana);
    AllRomajiConcat(MainKatakana, DakutenKatakana);
    AllRomajiConcat(MainKatakana + DakutenKatakana, HandakutenKatakana);
    if kanaType == KanaTypeHiragana then
      if includeDakuten then MainHiragana + DakutenHiragana + HandakutenHiragana
      else MainHiragana
    else if kanaType == KanaTypeKatakana then
      if includeDakuten then MainKatakana + DakutenKatakana + HandakutenKatakana
      else MainKatakana
    else if kanaType == KanaTypeBoth then
      if includeDakuten then
        var hiragana := MainHiragana + DakutenHiragana + HandakutenHiragana;
        AllRomajiConcat(hiragana, MainKatakana);
        AllRomajiConcat(hiragana + MainKatakana, DakutenKatakana);
        AllRomajiConcat(hiragana + MainKatakana + DakutenKatakana, HandakutenKatakana);
        hiragana + MainKatakana + DakutenKatakana + HandakutenKatakana
      else
        AllRomajiConcat(MainHiragana, MainKatakana);
        MainHiragana + MainKatakana
    else MainHiragana
  }

  lemma AllRomajiConcat(a: seq<Kana>, b: seq<Kana>)
    requires AllRomaji(a) && AllRomaji(b)
    ensures AllRomaji(a + b)
  {
    forall i | 0 <= i < |a + b| ensures IsRomaji((a + b)[i].romaji) {
      if i >= |a| { assert (a + b)[i] == b[i - |a|]; }
    }
  }

  /** Every table holds typeable romanizations only, so matching against
      lower-cased input is meaningful. */
  lemma TablesAreRomaji()
    ensures AllRomaji(MainHiragana) && AllRomaji(DakutenHiragana) && AllRomaji(HandakutenHiragana)
    ensures AllRomaji(MainKatakana) && AllRomaji(DakutenKatakana) && AllRomaji(HandakutenKatakana)
  {
    MainHiraganaIsRomaji();
    DakutenHiraganaIsRomaji();
    MainKatakanaIsRomaji();
    DakutenKatakanaIsRomaji();
  }

  lemma MainHiraganaVowelToNaRowsAreRomaji()
    ensures AllRomaji(MainHiraganaARow)
    ensures AllRomaji(MainHiraganaKaRow)
    ensures AllRomaji(MainHiraganaSaRow)
    ensures AllRomaji(MainHiraganaTaRow)
    ensures AllRomaji(MainHiraganaNaRow)
  {
  }

  lemma MainHiraganaHaToWaRowsAreRomaji()
    ensures AllRomaji(MainHiraganaHaRow)
    ensures AllRomaji(MainHiraganaMaRow)
    ensures AllRomaji(MainHiraganaYaRow)
    ensures AllRomaji(MainHiraganaRaRow)
    ensures AllRomaji(MainHiraganaWaRow)
  {
  }

  lemma MainHiraganaIsRomaji()
    ensures AllRomaji(MainHiragana)
  {
    MainHiraganaVowelToNaRowsAreRomaji();
    MainHiraganaHaToWaRowsAreRomaji();
    var t := MainHiraganaARow;
    AllRomajiConcat(t, MainHiraganaKaRow); t := t + MainHiraganaKaRow;
    AllRomajiConcat(t, MainHiraganaSaRow); t := t + MainHiraganaSaRow;
    AllRomajiConcat(t, MainHiraganaTaRow); t := t + MainHiraganaTaRow;
    AllRomajiConcat(t, MainHiraganaNaRow); t := t + MainHiraganaNaRow;
    AllRomajiConcat(t, MainHiraganaHaRow); t := t + MainHiraganaHaRow;
    AllRomajiConcat(t, MainHiraganaMaRow); t := t + MainHiraganaMaRow;
    AllRomajiConcat(t, MainHiraganaYaRow); t := t + MainHiraganaYaRow;
    AllRomajiConcat(t, MainHiraganaRaRow); t := t + MainHiraganaRaRow;
    AllRomajiConcat(t, MainHiraganaWaRow); t := t + MainHiraganaWaRow;
  }

  lemma DakutenHiraganaIsRomaji()
    ensures AllRomaji(DakutenHiragana)
  {
    var t := DakutenHiraganaGaRow;
    AllRomajiConcat(t, DakutenHiraganaZaRow); t := t + DakutenHiraganaZaRow;
    AllRomajiConcat(t, DakutenHiraganaDaRow); t := t + DakutenHiraganaDaRow;
    AllRomajiConcat(t, DakutenHiraganaBaRow); t := t + DakutenHiraganaBaRow;
  }

  lemma MainKatakanaVowelToNaRowsAreRomaji()
    ensures AllRomaji(MainKatakanaARow)
    ensures AllRomaji(MainKatakanaKaRow)
    ensures AllRomaji(MainKatakanaSaRow)
    ensures AllRomaji(MainKatakanaTaRow)
    ensures AllRomaji(MainKatakanaNaRow)
  {
  }

  lemma MainKatakanaHaToWaRowsAreRomaji()
    ensures AllRomaji(MainKatakanaHaRow)
    ensures AllRomaji(MainKatakanaMaRow)
    ensures AllRomaji(MainKatakanaYaRow)
    ensures AllRomaji(MainKatakanaRaRow)
    ensures AllRomaji(MainKatakanaWaRow)
  {
  }

  lemma MainKatakanaIsRomaji()
    ensures AllRomaji(MainKatakana)
  {
    MainKatakanaVowelToNaRowsAreRomaji();
    MainKatakanaHaToWaRowsAreRomaji();
    var t := MainKatakanaARow;
    AllRomajiConcat(t, MainKatakanaKaRow); t := t + MainKatakanaKaRow;
    AllRomajiConcat(t, MainKatakanaSaRow); t := t + MainKatakanaSaRow;
    AllRomajiConcat(t, MainKatakanaTaRow); t := t + MainKatakanaTaRow;
    AllRomajiConcat(t, MainKatakanaNaRow); t := t + MainKatakanaNaRow;
    AllRomajiConcat(t, MainKatakanaHaRow); t := t + MainKatakanaHaRow;
    AllRomajiConcat(t, MainKatakanaMaRow); t := t + MainKatakanaMaRow;
    AllRomajiConcat(t, MainKatakanaYaRow); t := t + MainKatakanaYaRow;
    AllRomajiConcat(t, MainKatakanaRaRow); t := t + MainKatakanaRaRow;
    AllRomajiConcat(t, MainKatakanaWaRow); t := t + MainKatakanaWaRow;
  }

  lemma DakutenKatakanaIsRomaji()
    ensures AllRomaji(DakutenKatakana)
  {
    var t := DakutenKatakanaGaRow;
    AllRomajiConcat(t, DakutenKatakanaZaRow); t := t + DakutenKatakanaZaRow;
    AllRomajiConcat(t, DakutenKatakanaDaRow); t := t + DakutenKatakanaDaRow;
    AllRomajiConcat(t, DakutenKatakanaBaRow); t := t + DakutenKatakanaBaRow;
    AllRomajiConcat(t, DakutenKatakanaVuRow); t := t + DakutenKatakanaVuRow;
  }

  /** For a single script, the plain set is a prefix of the set with dakuten. */
  lemma PlainIsPrefixOfDakuten(kanaType: KanaType)
    requires kanaType != KanaTypeBoth
    ensures GetKanaSet(kanaType, false) <= GetKanaSet(kanaType, true)
  {
  }

  /** For both scripts the plain set is contained in the set with dakuten but is
      not a prefix of it: the katakana follow the hiragana dakuten blocks. */
  lemma BothPlainIsContainedNotPrefix()
    ensures forall k :: k in GetKanaSet(KanaTypeBoth, false) ==> k in GetKanaSet(KanaTypeBoth, true)
    ensures !(GetKanaSet(KanaTypeBoth, false) <= GetKanaSet(KanaTypeBoth, true))
  {
    var plain, full := GetKanaSet(KanaTypeBoth, false), GetKanaSet(KanaTypeBoth, true);
    assert plain[46] == MainKatakana[0];
    assert full[46] == DakutenHiragana[0];
  }

  /** "Both" is the hiragana selection followed by the katakana selection, with
      or without dakuten. */
  lemma BothIsHiraganaThenKatakana(includeDakuten: bool)
    ensures GetKanaSet(KanaTypeBoth, includeDakuten)
         == GetKanaSet(KanaTypeHiragana, includeDakuten) + GetKanaSet(KanaTypeKatakana, includeDakuten)
  {
  }

  /** Any other selection value falls back to the plain hiragana. */
  lemma UnknownTypeIsMainHiragana(kanaType: KanaType, includeDakuten: bool)
    requires !(0 <= kanaType <= 2)
    ensures GetKanaSet(kanaType, includeDakuten) == MainHiragana
  {
  }
}
