/** The upload progress panel (src/components/LoadingStates.tsx): an icon,
    a title and a description per stage, the percentage and message as
    given, and four step indicators lit up to the current stage. */
module LoadingStates {
  import opened Common

  /** `UploadProgress` (src/lib/api.ts). The stage is kept as the text the
      component switches on, so stages outside the four known ones reach the
      default branches. */
  datatype UploadProgress = UploadProgress(stage: string, progress: int, message: string)

  /** The known stages, in the order an upload goes through them. */
  const Stages: seq<string> := ["uploading", "transcribing", "generating", "complete"]

  /** The position of a stage in the order, if it is a known stage. */
  function StageIndex(stage: string): (r: Option<nat>)
    ensures r.Some? <==> stage in Stages
    ensures r.Some? ==> r.value < |Stages| && Stages[r.value] == stage
  {
    if stage == "uploading" then Some(0)
    else if stage == "transcribing" then Some(1)
    else if stage == "generating" then Some(2)
    else if stage == "complete" then Some(3)
    else None
  }

  datatype Icon = UploadIcon | MicIcon | BrainIcon | CheckIcon

  /** `getIcon`. The default branch reuses the upload icon. */
  function GetIcon(stage: string): (r: Icon)
    ensures StageIndex(stage).Some? ==> IconStage(r) == stage
    ensures StageIndex(stage).None? ==> r == UploadIcon
  {
    match stage
    case "uploading" => UploadIcon
    case "transcribing" => MicIcon
    case "generating" => BrainIcon
    case "complete" => CheckIcon
    case _ => UploadIcon
  }

  /** The stage an icon stands for. */
  function IconStage(i: Icon): string {
    match i
    case UploadIcon => "uploading"
    case MicIcon => "transcribing"
    case BrainIcon => "generating"
    case CheckIcon => "complete"
  }

  /** `getStageText`. */
  function GetStageText(stage: string): (r: string)
    ensures StageIndex(stage).Some? ==> TextStage(r) == Some(stage)
    ensures StageIndex(stage).None? ==> TextStage(r) == None
  {
    match stage
    case "uploading" => "Enviando arquivo"
    case "transcribing" => "Transcrevendo áudio"
    case "generating" => "Gerando resposta do Capitão"
    case "complete" => "Concluído!"
    case _ => "Processando"
  }

  /** The stage a title announces, if any. */
  function TextStage(text: string): Option<string> {
    if text == "Enviando arquivo" then Some("uploading")
    else if text == "Transcrevendo áudio" then Some("transcribing")
    else if text == "Gerando resposta do Capitão" then Some("generating")
    else if text == "Concluído!" then Some("complete")
    else None
  }

  /** `getDescription`. */
  function GetDescription(stage: string): (r: string)
    ensures StageIndex(stage).Some? ==> DescriptionStage(r) == Some(stage)
    ensures StageIndex(stage).None? ==> DescriptionStage(r) == None
  {
    match stage
    case "uploading" => "Fazendo upload do seu arquivo..."
    case "transcribing" => "Convertendo sua pergunta em texto..."
    case "generating" => "O Capitão Caverna está preparando sua resposta..."
    case "complete" => "Sua resposta está pronta!"
    case _ => "Aguarde um momento..."
  }

  /** The stage a description belongs to, if any. */
  function DescriptionStage(text: string): Option<string> {
    if text == "Fazendo upload do seu arquivo..." then Some("uploading")
    else if text == "Convertendo sua pergunta em texto..." then Some("transcribing")
    else if text == "O Capitão Caverna está preparando sua resposta..." then Some("generating")
    else if text == "Sua resposta está pronta!" then Some("complete")
    else None
  }

  /** The four step indicators (Upload, Transcrição, Geração, Pronto), each
      lit by membership of the stage in its own list. Indicator i is lit
      exactly when the stage is known and at position i or later. */
  function Indicators(stage: string): (r: seq<bool>)
    ensures |r| == 4
    ensures forall i :: 0 <= i < 4 ==>
      (r[i] <==> StageIndex(stage).Some? && StageIndex(stage).value >= i)
    ensures r[3] <==> stage == "complete"
  {
    [ stage in ["uploading", "transcribing", "generating", "complete"],
      stage in ["transcribing", "generating", "complete"],
      stage in ["generating", "complete"],
      stage == "complete" ]
  }

  /** How many of the flags are set. */
  function CountLit(flags: seq<bool>): (n: nat)
    ensures n <= |flags|
  {
    if flags == [] then 0 else (if flags[0] then 1 else 0) + CountLit(flags[1..])
  }

  function Bit(b: bool): nat {
    if b then 1 else 0
  }

  lemma CountLitFour(r: seq<bool>)
    requires |r| == 4
    ensures CountLit(r) == Bit(r[0]) + Bit(r[1]) + Bit(r[2]) + Bit(r[3])
  {
    var r1, r2, r3 := r[1..], r[2..], r[3..];
    assert r1[1..] == r2 && r2[1..] == r3 && r3[1..] == [];
    assert CountLit(r3) == Bit(r[3]);
    assert CountLit(r2) == Bit(r[2]) + CountLit(r3);
    assert CountLit(r1) == Bit(r[1]) + CountLit(r2);
  }

  /** A known stage lights one indicator more than its position; an unknown
      stage lights none. */
  lemma LitCount(stage: string)
    ensures StageIndex(stage).Some? ==> CountLit(Indicators(stage)) == StageIndex(stage).value + 1
    ensures StageIndex(stage).None? ==> CountLit(Indicators(stage)) == 0
  {
    var r := Indicators(stage);
    CountLitFour(r);
    assert forall i :: 0 <= i < 4 ==> (r[i] <==> StageIndex(stage).Some? && StageIndex(stage).value >= i);
  }

  /** What the panel shows for one progress value. */
  datatype Panel = Panel(icon: Icon, title: string, description: string,
                         percent: int, message: string, lit: seq<bool>)

  /** The panel: percentage and message as given, the stage's icon and
      texts (the fallback ones for an unknown stage), and the indicators
      lit up to the stage's position. */
  function Render(p: UploadProgress): (r: Panel)
    ensures r.percent == p.progress && r.message == p.message
    ensures StageIndex(p.stage).Some? ==>
      IconStage(r.icon) == p.stage && TextStage(r.title) == Some(p.stage)
      && DescriptionStage(r.description) == Some(p.stage)
    ensures StageIndex(p.stage).None? ==>
      r.icon == UploadIcon && TextStage(r.title) == None && DescriptionStage(r.description) == None
    ensures |r.lit| == 4
    ensures forall i :: 0 <= i < 4 ==>
      (r.lit[i] <==> StageIndex(p.stage).Some? && StageIndex(p.stage).value >= i)
    ensures r.lit[3] <==> p.stage == "complete"
  {
    Panel(GetIcon(p.stage), GetStageText(p.stage), GetDescription(p.stage),
          p.progress, p.message, Indicators(p.stage))
  }

  /** The progress values `uploadQuestion` reports on a successful upload,
      in order. */
  const UploadSequence: seq<UploadProgress> := [
    UploadProgress("uploading", 10, "Enviando arquivo..."),
    UploadProgress("transcribing", 40, "Transcrevendo áudio..."),
    UploadProgress("generating", 70, "Gerando resposta do Capitão..."),
    UploadProgress("complete", 100, "Resposta pronta!")
  ]

  /** Along that sequence each report lights exactly one more indicator
      than the one before, and the percentage rises. */
  lemma UploadSequenceLightsInOrder()
    ensures forall i :: 0 <= i < |UploadSequence| ==>
      CountLit(Indicators(UploadSequence[i].stage)) == i + 1
    ensures forall i :: 0 < i < |UploadSequence| ==>
      UploadSequence[i - 1].progress < UploadSequence[i].progress
  {
    forall i | 0 <= i < |UploadSequence|
      ensures CountLit(Indicators(UploadSequence[i].stage)) == i + 1
    {
      var stage := UploadSequence[i].stage;
      assert StageIndex(stage) == Some(i);
      LitCount(stage);
    }
  }
}
