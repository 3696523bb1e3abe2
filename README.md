# in-trada badge layout model

in-trada is an event-credentialing web app. Operators design badge templates on a canvas.
Receptionists find or register participants, check them in and print their credentials.
This project models the heart of that app in Dafny. A badge template is an ordered list of
typed, absolutely positioned components. The model covers what reads or rewrites that list:

- the canvas editor's add, drag-stop, update and delete;
- the property inspector's shallow-merge edits, including the object it shares with the
  original component;
- the four renderers of a template: the editor preview, the hidden print preview, the
  badge page's print and live preview, and the reception desk's credential print. Each
  renders to a list of box records (geometry, style, content), not to CSS text;
- the small rules around them: participant search and statistics, the operator's status
  counts and filter, custom-field list edits, QR payload id extraction, default-template
  lookup, check-in and registration at the desk, and the role-based route guard.

One module per source file, plus shared modules:

- `Wrappers`: Option and Result.
- `Js`: the JavaScript semantics the source leans on. Numbers are integers or NaN. It also has
  truthiness and `||` defaults, ASCII `toLowerCase`, `includes`, `parseInt` and `trim` emptiness.
- `Seqs`: `map` and `filter` with their laws.
- `Types`: the records of `src/models/types.ts`.
- `Render`: the box record and the shared rule for a box's value. The rule is: the bound
  field, else the literal text, else ''.

Pages whose handlers change state (the canvas, the badge page, the reception desk, the
participant list) are classes whose methods change their fields. Everything the handlers get
from outside is a parameter: store reads and writes (`ok` flags, `Result`s), fresh ids, the
clock, `window.confirm`, `JSON.parse` and QR data URLs.

## Model

| member | source | states |
|---|---|---|
| Types.TipoDeNome | src/models/types.ts:108 | a stored type string reads as a declared type exactly when it is one of the seven names, and reading it back gives that string |
| Types.TipoRoundTrip | src/models/types.ts:108 | storing a declared type and reading it back gives the same type |
| Types.StatusDeNome | src/models/types.ts:61 | a stored status reads as a declared status exactly when it is one of the four names |
| Types.RegistroDe | src/models/types.ts:33-66 | a participant read as a record has its id, name, category and status; it has an `email` exactly when its stored document carries one, with that value |
| Render.ValorResolvido | src/pages/recepcionista/PainelRecepcao.tsx:228-230 | a truthy binding reads the bound field, '' when the record lacks it; without one, the literal text, '' when it is falsy (the same rule as src/components/editor/ComponentePreview.tsx:17-20, CrachaPreviewToPrint.tsx:17-19 and EditorCrachas.tsx:253-255) |
| Js.Lower | src/services/participanteService.ts:89 | lower-casing keeps the length and folds each character on its own |
| Js.OrStr | src/pages/recepcionista/PainelRecepcao.tsx:249 | JavaScript's or-default on an optional string gives the string when it is present and non-empty, otherwise the default |
| Js.OrNum | src/pages/recepcionista/PainelRecepcao.tsx:245 | JavaScript's or-default on an optional number gives the number when it is present, non-zero and not NaN, otherwise the default |
| Js.ParseInt | src/components/editor/PropriedadesComponente.tsx:69 | `parseInt` is NaN exactly when no digit follows an optional sign |
| Js.ParseIntShowInt | src/components/editor/PropriedadesComponente.tsx:69-96 | `parseInt` of a displayed integer gives that integer back |
| DragDropEditor.Mover | src/components/editor/DragDropEditor.tsx:64-71 | a drag stop keeps length and order; only the components with that id change, and only their x and y |
| DragDropEditor.Substituir | src/components/editor/DragDropEditor.tsx:74-79 | an update keeps length and order; exactly the positions with the new component's id hold it |
| DragDropEditor.Remover | src/components/editor/DragDropEditor.tsx:83-87 | a delete leaves no component with that id and keeps every other one |
| DragDropEditor.MoverIdempotente | src/components/editor/DragDropEditor.tsx:64-71 | the same drag stop applied twice gives the list it gives once |
| DragDropEditor.MoverUltimoVence | src/components/editor/DragDropEditor.tsx:64-71 | positions are absolute: the second of two stops decides the result |
| DragDropEditor.SubstituirUnico | src/components/editor/DragDropEditor.tsx:74-79 | with unique ids an update replaces exactly the one matching position |
| DragDropEditor.RemoverPreservaOrdem | src/components/editor/DragDropEditor.tsx:83-87 | the components a delete keeps stay in their relative order |
| DragDropEditor.RemoverUnico | src/components/editor/DragDropEditor.tsx:83-87 | with unique ids a delete removes exactly the one position carrying the id |
| DragDropEditor.AdicionarExcluirOrdem | src/components/editor/DragDropEditor.tsx:42-87 | adding A, B, C then deleting B leaves [A, C]; re-adding B puts it last |
| DragDropEditor.EdicoesPreservamIdsUnicos | src/components/editor/DragDropEditor.tsx:64-87 | drag stop, update and delete keep the ids unique |
| DragDropEditor.AtualizarAposArrastar | src/components/editor/DragDropEditor.tsx:64-79 | `handleStop` does not refresh the selection; an update built from a selection taken before the stop undoes the move |
| DragDropEditor.Editor.constructor | src/components/editor/DragDropEditor.tsx:30-31 | the editor starts from the given list with nothing selected |
| DragDropEditor.Editor.Adicionar | src/components/editor/DragDropEditor.tsx:42-61 | one new component (10,10, 100x30, 'Texto' only for texto, black 14 centred) is appended, the rest and the selection kept, the new list reported |
| DragDropEditor.Editor.Parar | src/components/editor/DragDropEditor.tsx:64-71 | the dragged component takes the absolute position and the new list is reported |
| DragDropEditor.Editor.Atualizar | src/components/editor/DragDropEditor.tsx:74-80 | the component is replaced by id, becomes the selection, and the new list is reported |
| DragDropEditor.Editor.Excluir | src/components/editor/DragDropEditor.tsx:83-87 | the components with the id leave the list, the new list is reported and the selection cleared |
| DragDropEditor.Editor.Selecionar | src/components/editor/DragDropEditor.tsx:127 | clicking a component selects it and leaves the list alone |
| DragDropEditor.NovoComponente | src/components/editor/DragDropEditor.tsx:42-57 | the new component has the given id and type, 100x30 at (10,10), no binding or image, black 14 centred style; text 'Texto' exactly for a texto, else '' |
| DragDropEditor.FerramentasSemBarcode | src/components/editor/DragDropEditor.tsx:33-40 | the toolbox offers six distinct types (texto, campo, botao, qrcode, imagem, divisao) and no barcode |
| PropriedadesComponente.AplicarEstilo | src/components/editor/PropriedadesComponente.tsx:24-29 | after a style edit the named key reads the written value and every other key reads as before |
| PropriedadesComponente.AplicarTopo | src/components/editor/PropriedadesComponente.tsx:31-35 | after a top-level edit the named property reads the written value and every other property reads as before |
| PropriedadesComponente.Aplicar | src/components/editor/PropriedadesComponente.tsx:22-38 | the edited component keeps id and type; a style edit changes only `estilos`, a top-level edit only its property |
| PropriedadesComponente.TopoPreservaEstilos | src/components/editor/PropriedadesComponente.tsx:31-35 | a top-level edit never changes the style bag |
| PropriedadesComponente.TopoSemMudanca | src/components/editor/PropriedadesComponente.tsx:31-35 | writing back a property's current value changes nothing |
| PropriedadesComponente.TopoComutam | src/components/editor/PropriedadesComponente.tsx:31-35 | edits of two different top-level properties commute |
| PropriedadesComponente.EdicaoSubstituiSoOInspecionado | src/components/editor/PropriedadesComponente.tsx:38 | the inspector's update, given to the canvas, replaces exactly the inspected component |
| PropriedadesComponente.ExcluirPeloInspetor | src/components/editor/PropriedadesComponente.tsx:41-43 | deleting from the inspector removes exactly the inspected component from the canvas |
| PropriedadesComponente.EntradaNumerica | src/components/editor/PropriedadesComponente.tsx:69-263 | typing into a numeric input stores `parseInt` of the text in that property only; text without a leading digit stores NaN |
| PropriedadesComponente.EntradaNumericaIda | src/components/editor/PropriedadesComponente.tsx:69-96 | re-typing a displayed integer stores that integer |
| PropriedadesComponente.FormularioDe | src/components/editor/PropriedadesComponente.tsx:103-263 | the text input only for texto/botao, the binding only for campo (options '' then the fields), the URL only for imagem; geometry as stored; text, binding and URL as set or ''; each style as set when truthy, otherwise #000000, #ffffff, 12, left, 0, #000000, 0; the flags exactly when true |
| PropriedadesComponente.FormularioMostraEdicao | src/components/editor/PropriedadesComponente.tsx:157-263 | after a style edit the form shows the written value, or the default when that value is falsy |
| PropriedadesComponente.PropriedadesObj.constructor | src/components/editor/PropriedadesComponente.tsx:31-35 | a fresh properties object holds the given record |
| PropriedadesComponente.ComponenteObj.constructor | src/components/editor/PropriedadesComponente.tsx:22 | a component object holds its id, type and a reference to its properties |
| PropriedadesComponente.HandleChange | src/components/editor/PropriedadesComponente.tsx:17-39 | as written: a style edit shares and mutates the original's properties; a top-level edit makes fresh ones and leaves the original alone |
| PropriedadesComponente.HandleChangeCopia | src/components/editor/PropriedadesComponente.tsx:17-39 | with the properties copied too, the original never changes and the result is the edited component |
| PropriedadesComponente.DemonstraAliasing | src/components/editor/PropriedadesComponente.tsx:22-29 | a colour edit through the handler as written changes how the original component reads |
| PropriedadesComponente.DemonstraSemAliasing | src/components/editor/PropriedadesComponente.tsx:22-29 | the same edit through the corrected handler leaves the original as it was |
| ComponentePreview.ValorCampo | src/components/editor/ComponentePreview.tsx:17-20 | with data, the preview's value is exactly the printers' rule; without data, the text or '' |
| ComponentePreview.EstilosBase | src/components/editor/ComponentePreview.tsx:22-40 | every attribute set: a truthy value used as set, otherwise 12, Arial, #000000, transparent, width 0, square; bold, italic, underline exactly on their flags; a solid border exactly for a truthy width; centred content only for a button |
| ComponentePreview.Preview | src/components/editor/ComponentePreview.tsx:22-103 | the base styles for every type (QR code and barcode centred; a divider's background set or '#f0f0f0'); each type's element: text or 'Texto de exemplo', 'Botão', `{campo}`, the QR icon, the barcode of the value, the image URL or the 'Imagem' placeholder, an empty divider, 'Componente desconhecido' |
| ComponentePreview.PreviewSemEstilos | src/components/editor/ComponentePreview.tsx:22-34 | with no style a component renders black 12px Arial, left, plain, transparent, no border, square |
| ComponentePreview.PreviewBorda | src/components/editor/ComponentePreview.tsx:31-33 | a solid border at the given width exactly when the width is a non-zero number, else width 0 and none |
| ComponentePreview.PreviewFormatacao | src/components/editor/ComponentePreview.tsx:26-28 | bold, italic and underline exactly when their flags are true |
| ComponentePreview.PreviewCampo | src/components/editor/ComponentePreview.tsx:48-49 | a campo shows its value, or `{binding}` (`{campo}` unbound) when that is empty |
| CrachaPreviewToPrint.CssImpressao | src/pages/operador/CrachaPreviewToPrint.tsx:24-32 | style fields pass through with no defaults; unset stays unset |
| CrachaPreviewToPrint.Renderizar | src/pages/operador/CrachaPreviewToPrint.tsx:12-49 | surface of the given size, one box per component in order at its geometry; a QR of the whole record, else the resolved value |
| CrachaPreviewToPrint.RenderizarConcat | src/pages/operador/CrachaPreviewToPrint.tsx:15-49 | boxes are independent: rendering distributes over concatenating lists |
| CrachaPreviewToPrint.BarcodeComoTexto | src/pages/operador/CrachaPreviewToPrint.tsx:42-46 | a barcode prints its resolved value as plain text |
| CrachaPreviewToPrint.CampoConcordaComEditor | src/pages/operador/CrachaPreviewToPrint.tsx:17-19 | a bound field shows the editor preview's text when non-empty, and '' where the editor shows a placeholder |
| EditorCrachas.CamposDisponiveis | src/pages/operador/EditorCrachas.tsx:79-80 | the six standard field names, then the event's custom-field names in order |
| EditorCrachas.ModeloInicial | src/pages/operador/EditorCrachas.tsx:82-176 | the starter template: six components, barcode of id, event name, nome, empresa, QR, categoria |
| EditorCrachas.ModeloInicialForma | src/pages/operador/EditorCrachas.tsx:82-176 | types in order, the first a barcode no toolbar button adds; bindings among the bindable fields; unique ids |
| EditorCrachas.ModeloInicialVinculos | src/pages/operador/EditorCrachas.tsx:82-176 | each starter component's type and binding, the event name's bold 16px style and the 60x60 QR |
| EditorCrachas.ModeloInicialAltura | src/pages/operador/EditorCrachas.tsx:82-176 | the QR reaches 270, past the 250 badge; every other component fits |
| EditorCrachas.CssImpressao | src/pages/operador/EditorCrachas.tsx:276-288 | per field: a truthy size, colour or radius is used as set, otherwise 14, #000, transparent, 0; bold exactly when `negrito`; left unless aligned; centred; no font family, italics, underline or border |
| EditorCrachas.Impressao | src/pages/operador/EditorCrachas.tsx:244-314 | a 400x250 page, one box per component in order at its geometry; QR image or resolved sample value |
| EditorCrachas.ImpressaoModeloInicial | src/pages/operador/EditorCrachas.tsx:239-292 | the printed starter template shows the sample id, event name, name, company, QR image and category |
| EditorCrachas.ImpressaoConcordaComPrevia | src/pages/operador/EditorCrachas.tsx:251-292 | print and hidden preview agree on geometry and text; the print adds defaults the preview leaves unset |
| EditorCrachas.CssPagina | src/pages/operador/EditorCrachas.tsx:394-412 | size, alignment, colours and radius pass through unset-as-unset; font family Arial, border width 0 and colour transparent when falsy; bold, italic, underline exactly on their flags; a solid border exactly for a truthy width; centred |
| EditorCrachas.CaixaDaPagina | src/pages/operador/EditorCrachas.tsx:386-430 | one preview box at the component's position and size in the preview style: QR of the sample participant, barcode of the resolved value (40 high when the height is falsy), or the resolved value |
| EditorCrachas.PreviaPagina | src/pages/operador/EditorCrachas.tsx:375-435 | a 400x250 surface, one box per component at its position and size in the page preview style; QR of the sample participant at the component's height; a barcode of the resolved value, 40 high when the height is falsy; otherwise the resolved value |
| EditorCrachas.BarcodePreviaVsImpressao | src/pages/operador/EditorCrachas.tsx:418-428 | a barcode carries the same value in the live preview (as a symbol) and in the print (as text) |
| EditorCrachas.Pagina.constructor | src/pages/operador/EditorCrachas.tsx:43-55 | the page starts unsaved, named 'Novo Modelo de Crachá', empty |
| EditorCrachas.Pagina.CarregarModelos | src/pages/operador/EditorCrachas.tsx:57-68 | the saved list is the store's, or an error notice on failure |
| EditorCrachas.Pagina.CarregarEvento | src/pages/operador/EditorCrachas.tsx:71-195 | on an existing event the fields and the unsaved starter template are loaded; a failed read leaves a notice |
| EditorCrachas.Pagina.EditorSalvou | src/pages/operador/EditorCrachas.tsx:367 | the canvas's list becomes the page's |
| EditorCrachas.Pagina.Renomear | src/pages/operador/EditorCrachas.tsx:347 | the name input sets the template name |
| EditorCrachas.Pagina.UsarModelo | src/pages/operador/EditorCrachas.tsx:469-474 | a saved template's id, name and components are loaded |
| EditorCrachas.Pagina.SalvarModelo | src/pages/operador/EditorCrachas.tsx:197-237 | a loaded model is updated, otherwise created; a successful create loads the new id even if the list re-read then fails, in which case the list stays and the error notice shows; success only when every store step succeeds |
| EditorCrachas.Pagina.ExcluirModelo | src/pages/operador/EditorCrachas.tsx:479-496 | a deleted model leaves the list; if it was loaded the page resets to a new empty model |
| EditorCrachas.ExcluirModeloLista | src/pages/operador/EditorCrachas.tsx:485 | no model with the id remains and the others keep their order |
| PainelRecepcao.ModeloPadrao | src/pages/recepcionista/PainelRecepcao.tsx:48-51 | the first template flagged default, or none exactly when no template is flagged |
| PainelRecepcao.PrimeiroPadraoVence | src/pages/recepcionista/PainelRecepcao.tsx:212-214 | an earlier flagged template hides every later one |
| PainelRecepcao.ExtrairId | src/pages/recepcionista/PainelRecepcao.tsx:108-119 | a truthy `id` of a parsed JSON object, otherwise the raw text |
| PainelRecepcao.ParticipanteJson | src/pages/recepcionista/PainelRecepcao.tsx:224 | the payload is an object carrying the participant's id and status name |
| PainelRecepcao.EscanearCredencial | src/pages/recepcionista/PainelRecepcao.tsx:111-119 | scanning a desk-printed payload gives back the participant's id |
| PainelRecepcao.EscanearTextoSimples | src/pages/recepcionista/PainelRecepcao.tsx:110-119 | text that is not a JSON object is used as the id as it is |
| PainelRecepcao.CssRecepcao | src/pages/recepcionista/PainelRecepcao.tsx:240-256 | per field, the badge page's print style (14, #000, transparent, 0 for falsy values; bold exactly when `negrito`; left unless aligned; centred) plus the font family, Arial when unset |
| PainelRecepcao.CssRecepcaoVsEditor | src/pages/recepcionista/PainelRecepcao.tsx:240-256 | the desk and the badge page style boxes alike except that only the desk sets a font family |
| PainelRecepcao.Credencial | src/pages/recepcionista/PainelRecepcao.tsx:226-281 | a 400x200 page, one box per component in order at its position and size; a QR image of the payload, or the participant's resolved value in the desk's print style |
| PainelRecepcao.CredencialMaisBaixaQueEditor | src/pages/recepcionista/PainelRecepcao.tsx:260-261 | the desk page is 200 high against the editor's 250, at the same width |
| PainelRecepcao.CampoSemValorNaRecepcao | src/pages/recepcionista/PainelRecepcao.tsx:228-230 | a binding the participant's record lacks (a custom field's name; `email` for a participant registered at the desk) prints '' |
| PainelRecepcao.EmailNuncaNaRecepcao | src/pages/recepcionista/PainelRecepcao.tsx:315-340 | a participant registered at the desk has no `email` in its record |
| PainelRecepcao.CampoEmailNaRecepcao | src/pages/recepcionista/PainelRecepcao.tsx:228-230 | a participant whose stored document carries `email` (written by the operator's form or the CSV import) has it printed by a component bound to `email` |
| PainelRecepcao.RotuloStatus | src/pages/recepcionista/PainelRecepcao.tsx:504-508 | 'Credenciado', 'Confirmado', and 'Pendente' for every other status |
| PainelRecepcao.CanceladoApareceComoPendente | src/pages/recepcionista/PainelRecepcao.tsx:504-508 | a cancelled participant is labelled like a pending one |
| PainelRecepcao.NovoParticipante | src/pages/recepcionista/PainelRecepcao.tsx:315-358 | pending; badge name and company copied; e-mail in both e-mail fields, phone in both phone fields; every other declared field (cargo, rg, cnpj, codigoCliente, opcao1-10...) empty; nothing beyond the declared fields; both timestamps the clock |
| PainelRecepcao.ComCheckin | src/pages/recepcionista/PainelRecepcao.tsx:172-176 | same length and order; exactly the entries with that id become the checked-in participant |
| PainelRecepcao.CheckinIdempotente | src/pages/recepcionista/PainelRecepcao.tsx:167-176 | checking the same participant in twice gives the list once checked in |
| PainelRecepcao.CheckinSoMudaOSelecionado | src/pages/recepcionista/PainelRecepcao.tsx:167-176 | after a check-in that participant's entries are credenciado and no other entry changes |
| PainelRecepcao.PayloadMudaComCheckin | src/pages/recepcionista/PainelRecepcao.tsx:200-206 | a payload captured before a check-in differs from the one after it |
| PainelRecepcao.Recepcao.constructor | src/pages/recepcionista/PainelRecepcao.tsx:29-36 | the desk starts with no event, no list, no selection, no notice |
| PainelRecepcao.Recepcao.Carregar | src/pages/recepcionista/PainelRecepcao.tsx:53-78 | an existing event and then its participants are loaded; a failed read leaves a notice |
| PainelRecepcao.Recepcao.Selecionar | src/pages/recepcionista/PainelRecepcao.tsx:154-157 | selecting a participant clears the notice |
| PainelRecepcao.Recepcao.Buscar | src/pages/recepcionista/PainelRecepcao.tsx:81-105 | blank terms do nothing; the list becomes the result with a notice when empty or failed |
| PainelRecepcao.Recepcao.ProcessarQrCode | src/pages/recepcionista/PainelRecepcao.tsx:108-152 | found participants are selected with a notice by status; unknown ids and failures give error notices |
| PainelRecepcao.Recepcao.Checkin | src/pages/recepcionista/PainelRecepcao.tsx:159-194 | on success the selection and its list entries become credenciado; on failure an error notice |
| PainelRecepcao.Recepcao.ImprimirCredencial | src/pages/recepcionista/PainelRecepcao.tsx:208-304 | the default template's credential, or the no-default and error notices, or nothing without a window |
| PainelRecepcao.Recepcao.ConfirmarCheckin | src/pages/recepcionista/PainelRecepcao.tsx:200-206 | the check-in's new list, selection and notice; then, when printing, the credential of the default template for the participant as selected before the check-in, or the print's notices; the event unchanged |
| PainelRecepcao.Recepcao.Cadastrar | src/pages/recepcionista/PainelRecepcao.tsx:306-377 | a signed-in registration prepends and selects the new participant; failure gives a notice |
| ParticipanteService.Inclui | src/services/participanteService.ts:90-92 | reading a missing field fails; otherwise whether the field contains the term |
| ParticipanteService.Corresponde | src/services/participanteService.ts:90-93 | left-to-right short-circuit test; it throws exactly when it reaches a field the document lacks, and when it succeeds it agrees with the tolerant test |
| ParticipanteService.Filtrar | src/services/participanteService.ts:90-94 | succeeds exactly when no test fails, and then keeps exactly the matching documents |
| ParticipanteService.BuscarParticipantes | src/services/participanteService.ts:64-99 | the search throws exactly when some document reaches a field it lacks; otherwise it keeps exactly the documents whose name, e-mail or company includes the term, ignoring case |
| ParticipanteService.BuscaIgnoraCaixa | src/services/participanteService.ts:89 | the search gives the same answer for a term and its lower-cased form |
| ParticipanteService.BuscaMantemOrdem | src/services/participanteService.ts:89-94 | a successful search keeps exactly the matches, in order |
| ParticipanteService.BuscaVaziaMantemTodos | src/services/participanteService.ts:89-94 | an empty term keeps every document with a name |
| ParticipanteService.BuscaComTodosOsCampos | src/services/participanteService.ts:90-97 | documents with all three fields never make the search fail |
| ParticipanteService.DocRecepcao | src/pages/recepcionista/PainelRecepcao.tsx:315-340 | the desk's document for a participant has a name, a company and `email1`, but no `email` |
| ParticipanteService.BuscaFalhaComCadastroDaRecepcao | src/services/participanteService.ts:90-97 | one desk-registered participant not matched by name makes the search fail |
| ParticipanteService.BuscaFalhaExemplo | src/services/participanteService.ts:90-97 | searching "x" with a participant "Ana" registered at the desk fails |
| ParticipanteService.BuscarParticipantesTolerante | src/services/participanteService.ts:89-94 | the corrected search never fails and keeps exactly the tolerant matches |
| ParticipanteService.ToleranteConcorda | src/services/participanteService.ts:89-94 | wherever the search as written succeeds, the corrected one gives the same list |
| ParticipanteService.ToleranteComCadastroDaRecepcao | src/services/participanteService.ts:89-94 | the corrected search keeps a desk-registered participant exactly when it matches |
| ParticipanteService.Conta | src/services/participanteService.ts:179-183 | an item's count is positive exactly when it occurs |
| ParticipanteService.ContarPor | src/services/participanteService.ts:179-183 | the count map has exactly the occurring keys, each with its number of occurrences |
| ParticipanteService.SomaContarPor | src/services/participanteService.ts:178-185 | the counts over all keys sum to the number of items |
| ParticipanteService.ContarPorMais | src/services/participanteService.ts:181-182 | one more item adds one to its key's count |
| ParticipanteService.Contar | src/services/participanteService.ts:179-190 | the counting `reduce` yields the count map of the keys |
| ParticipanteService.ObterEstatisticas | src/services/participanteService.ts:175-196 | total is the list length; per-status and per-category counts cover every participant and each sum to the total |
| GerenciarParticipantes.Conta | src/pages/operador/GerenciarParticipantes.tsx:112-117 | a status count never exceeds the list |
| GerenciarParticipantes.StatusCounts | src/pages/operador/GerenciarParticipantes.tsx:112-117 | each of the four counts is at most the list length |
| GerenciarParticipantes.Total | src/pages/operador/GerenciarParticipantes.tsx:119 | the total is at least each count, and zero exactly when all four are |
| GerenciarParticipantes.TotalLimitado | src/pages/operador/GerenciarParticipantes.tsx:119 | the total is at most the list length, and equal exactly when every status is one of the four |
| GerenciarParticipantes.DadosDonut | src/pages/operador/GerenciarParticipantes.tsx:121-124 | two slices, the status's count and 'outros', non-negative and summing to the total |
| GerenciarParticipantes.DonutsDaPagina | src/pages/operador/GerenciarParticipantes.tsx:121-124 | a donut's slices never exceed the list; 'outros' of one is the sum of the other three counts |
| GerenciarParticipantes.Filtrados | src/pages/operador/GerenciarParticipantes.tsx:162 | 'todos' keeps everyone; another filter keeps exactly the equal statuses |
| GerenciarParticipantes.FiltradosEmOrdem | src/pages/operador/GerenciarParticipantes.tsx:246 | the filter keeps the list's order |
| GerenciarParticipantes.ClicarDonutMostraContagem | src/pages/operador/GerenciarParticipantes.tsx:154 | clicking a donut title shows as many rows as that donut counts |
| GerenciarParticipantes.SemParticipante | src/pages/operador/GerenciarParticipantes.tsx:96 | no entry keeps the id and every other entry stays |
| GerenciarParticipantes.ExcluirContagem | src/pages/operador/GerenciarParticipantes.tsx:96 | the entries removed are exactly those with the id, and the rest keep their order |
| GerenciarParticipantes.Pagina.constructor | src/pages/operador/GerenciarParticipantes.tsx:24-29 | the page starts on the given event, unfiltered, with no list and no error |
| GerenciarParticipantes.Pagina.Linhas | src/pages/operador/GerenciarParticipantes.tsx:246 | the table shows at most the loaded list |
| GerenciarParticipantes.Pagina.ClicarTitulo | src/pages/operador/GerenciarParticipantes.tsx:154 | the filter becomes the lower-cased title |
| GerenciarParticipantes.Pagina.LimparFiltro | src/pages/operador/GerenciarParticipantes.tsx:182-189 | the filter is reset and the table shows the whole list |
| GerenciarParticipantes.Pagina.Excluir | src/pages/operador/GerenciarParticipantes.tsx:92-101 | after confirmation and a successful delete the entries with the id leave the list; failure sets the error |
| GerenciarParticipantes.Pagina.Buscar | src/pages/operador/GerenciarParticipantes.tsx:73-90 | a blank term reloads the event's list, otherwise the list becomes the search result; failure sets the error |
| EventoService.CamposAtuais | src/services/eventoService.ts:134 | a missing list reads as empty |
| EventoService.ComCampo | src/services/eventoService.ts:136 | the new field comes after every existing one |
| EventoService.SemCampo | src/services/eventoService.ts:159 | no field with the id remains and every other one stays |
| EventoService.SemCampoEmOrdem | src/services/eventoService.ts:159 | removal keeps the others in order |
| EventoService.RemoverDesfazAdicionar | src/services/eventoService.ts:133-160 | removing a just-added field under a fresh id restores the list |
| EventoService.RemoverIdempotente | src/services/eventoService.ts:159 | removing twice by one id is removing once |
| EventoService.Banco.AdicionarCampo | src/services/eventoService.ts:120-144 | a missing event fails with 'Evento não encontrado' and writes nothing; otherwise the field is appended |
| EventoService.Banco.RemoverCampo | src/services/eventoService.ts:146-170 | a missing event fails with 'Evento não encontrado' and writes nothing; otherwise the fields with the id go |
| EventoService.QuantidadeParticipantes | src/services/eventoService.ts:44-49 | an event's count is at most the list, and zero exactly when no participant belongs to it |
| EventoService.ObterEventos | src/services/eventoService.ts:36-58 | each listed event carries its document id and its participant count |
| EventoService.QuantidadeAposCadastro | src/services/eventoService.ts:44-49 | a new participant adds one to its own event's count only |
| EventoService.QuantidadeAposExclusao | src/services/eventoService.ts:44-49 | removing a participant takes one off its event's count |
| ProtectedRoute.Inicio | src/components/auth/ProtectedRoute.tsx:29-37 | admin, operador and recepcionista have their homes; any other role none |
| ProtectedRoute.Decidir | src/components/auth/ProtectedRoute.tsx:18-42 | loading first; login with origin when signed out; children exactly on a role match; else the user's home or login |
| ProtectedRoute.PapelDoInicio | src/components/auth/ProtectedRoute.tsx:29-34 | each home path belongs to the role whose home it is |
| ProtectedRoute.RedirecionamentoSemLaco | src/components/auth/ProtectedRoute.tsx:27-34 | a redirect leads to a page whose guard renders for the same user |
| ProtectedRoute.PapelDesconhecidoVaiAoLogin | src/components/auth/ProtectedRoute.tsx:35-37 | an unknown role is sent to the login page without an origin |

## Left out

- I/O: Firestore reads and writes, `window.open`/`print`, `window.confirm`, `setTimeout` notice clearing and the loading flags. Their outcomes are parameters (`ok` flags, `Result`s).
- Fresh ids (`nanoid`, store ids) and the clock are parameters. Unique ids are a precondition where a lemma needs them.
- The QR and barcode encodings. A QR image is its data URL, passed in. The credential records its payload as a JSON value, not as text. `JSON.stringify`/`JSON.parse` are a parsed-value parameter.
- Numbers are integers or NaN. Fractions and the preview's `*0.8` icon size are not modelled.
- React rendering, drag bounds and the CSS scale transforms. Boxes are records, not CSS text.
- Pure Firestore plumbing: `modeloService.ts`, the fetch halves of the services, `AuthContext`, dashboards and charts, forms, routes and layout components.
- Js.ParseInt: leading whitespace, a `0x` prefix and digits after a decimal point are not modelled. The model reads an optional sign and then decimal digits.
- PainelRecepcao.Recepcao.ProcessarQrCode: the store lookup is a map by id, which abstracts away the store client's own id validation. A non-string id is taken to make the lookup throw. A string the client refuses as a document id (an empty one, or one holding '/', such as a URL) would also throw and show 'Erro ao processar QR Code. Tente novamente.', where the model shows 'Participante não encontrado com este QR Code.'. That validation is in the store client, which is not part of this model.
- PainelRecepcao.Recepcao.Buscar: the search result is passed in. The search itself is `ParticipanteService.BuscarParticipantes`, over store documents.
- GerenciarParticipantes: the event loading, the event selector, navigation and `formatarData` (date-fns) are left out.
- EventoService: creating, reading, updating and deleting events are store calls, and Timestamp conversion is formatting. Both are left out.
- Js.Lower: folds ASCII capitals only. JavaScript's `toLowerCase` also folds accented capitals such as Ã, Ç and É, so the source finds "joão" in "JOÃO SILVA" where the model does not. The model is exact on ASCII text only.
- Js.EmBranco: treats space, tab, newline and carriage return as blank. JavaScript's `trim` also strips the other Unicode spaces (U+00A0, U+2003, the line separators...), so a term made only of those is blank in the source and not in the model.
- ParticipanteService.ContarPor: counts into a map that starts empty. The source counts into a plain object `{}`, where a status or category named after an inherited property ("constructor", "toString") starts from that property instead of 0 and ends up with a string, not a count. The model gives every key its true count.
- Types.Participante: a declared field that a stored document lacks (`email1` for a participant created by the operator's form, say) is modelled as ''. Every renderer reads it through `|| ''`, so it prints the same. Only the document's string fields beyond the declared ones are kept, in `outros`; a binding to `camposPersonalizados` itself, which prints `[object Object]`, is not modelled.
- PainelRecepcao.NovoParticipante: `criadoEm` and `atualizadoEm` are two reads of the clock in the source, a few microseconds apart at most. The model reads the clock once, so both are `agora`.
- EditorCrachas.Pagina.SalvarModelo: the new model's two timestamps are likewise two clock reads in the source and one (`agora`) in the model.

## Findings

| source | as written | input that shows it | evidently intended | confidence | as-written member | corrected member |
|---|---|---|---|---|---|---|
| src/components/editor/PropriedadesComponente.tsx:22-29 | `{ ...componente }` copies only the outer object, so a style edit assigns `estilos` on the `propriedades` object the original component shares | a component with no styles, edited to font colour "#ff0000": the original component now has that colour too | the edit yields a new component and leaves the original untouched, as a top-level edit does | not executed | PropriedadesComponente.DemonstraAliasing | PropriedadesComponente.HandleChangeCopia |
| src/services/participanteService.ts:92 | the filter reads `p.email`, a field that participants registered at the reception desk do not have (they have `email1`/`email2`), and `toLowerCase` on it throws | one participant registered at the reception desk named "Ana", searched with "x": the search rejects | a search that never throws, where a field a participant lacks simply does not match | not executed | ParticipanteService.BuscaFalhaExemplo | ParticipanteService.BuscarParticipantesTolerante |
