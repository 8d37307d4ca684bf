/** The fixed instrument universe of both handlers: twenty Korean listings,
    with Yahoo symbols (".KS" suffix) in one handler and bare six-digit
    codes in the KIS one. */
module Universe {
  import opened Market

  const YahooUniverse: seq<Instrument> := [
    Instrument("005930.KS", "삼성전자", "전기전자"),
    Instrument("000660.KS", "SK하이닉스", "전기전자"),
    Instrument("035420.KS", "NAVER", "IT"),
    Instrument("005380.KS", "현대차", "자동차"),
    Instrument("051910.KS", "LG화학", "화학"),
    Instrument("006400.KS", "삼성SDI", "전기전자"),
    Instrument("035720.KS", "카카오", "IT"),
    Instrument("028260.KS", "삼성물산", "유통"),
    Instrument("068270.KS", "셀트리온", "제약/바이오"),
    Instrument("207940.KS", "삼성바이오로직스", "제약/바이오"),
    Instrument("005490.KS", "POSCO홀딩스", "철강"),
    Instrument("012330.KS", "현대모비스", "자동차"),
    Instrument("066570.KS", "LG전자", "전기전자"),
    Instrument("003550.KS", "LG", "기타"),
    Instrument("096770.KS", "SK이노베이션", "화학"),
    Instrument("017670.KS", "SK텔레콤", "통신"),
    Instrument("009150.KS", "삼성전기", "전기전자"),
    Instrument("011200.KS", "HMM", "운수"),
    Instrument("086790.KS", "하나금융지주", "금융"),
    Instrument("055550.KS", "신한지주", "금융")
  ]

  const KisUniverse: seq<Instrument> := [
    Instrument("005930", "삼성전자", "전기전자"),
    Instrument("000660", "SK하이닉스", "전기전자"),
    Instrument("035420", "NAVER", "IT"),
    Instrument("005380", "현대차", "자동차"),
    Instrument("051910", "LG화학", "화학"),
    Instrument("006400", "삼성SDI", "전기전자"),
    Instrument("035720", "카카오", "IT"),
    Instrument("028260", "삼성물산", "유통"),
    Instrument("068270", "셀트리온", "제약/바이오"),
    Instrument("207940", "삼성바이오로직스", "제약/바이오"),
    Instrument("005490", "POSCO홀딩스", "철강"),
    Instrument("012330", "현대모비스", "자동차"),
    Instrument("066570", "LG전자", "전기전자"),
    Instrument("003550", "LG", "기타"),
    Instrument("096770", "SK이노베이션", "화학"),
    Instrument("017670", "SK텔레콤", "통신"),
    Instrument("009150", "삼성전기", "전기전자"),
    Instrument("011200", "HMM", "운수"),
    Instrument("086790", "하나금융지주", "금융"),
    Instrument("055550", "신한지주", "금융")
  ]

  /** Both handlers scan the same twenty instruments in the same order: the
      Yahoo symbol is the KIS code with ".KS" appended (the Yahoo entry's
      koreanCode), and names and sectors agree. */
  lemma UniversesAgree()
    ensures |YahooUniverse| == |KisUniverse| == 20
    ensures forall i :: 0 <= i < 20 ==> YahooUniverse[i] == KisUniverse[i].(code := KisUniverse[i].code + ".KS")
  {
    forall i | 0 <= i < 20
      ensures YahooUniverse[i] == KisUniverse[i].(code := KisUniverse[i].code + ".KS")
    {
      var y, k := YahooUniverse[i], KisUniverse[i];
      assert |y.code| == 9 && |k.code| == 6;
      assert y.code[..6] == k.code && y.code[6..] == ".KS";
      assert y.code == y.code[..6] + y.code[6..];
    }
  }

  /** No code is listed twice, so every analysis names one instrument. */
  lemma CodesDistinct()
    ensures forall i, j :: 0 <= i < j < |KisUniverse| ==> KisUniverse[i].code != KisUniverse[j].code
  {
  }
}
