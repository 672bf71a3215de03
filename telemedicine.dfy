/**
 * The telemedicine screen (src/components/TelemedicineSession.tsx): the flag
 * that switches to the pre-visit form, the five-field form record, and the
 * link to the full medical history.
 */
module Telemedicine {
  import Routing

  /** The fields of the pre-visit form. */
  datatype Field = Symptoms | Duration | Medications | Allergies | AdditionalInfo

  datatype PreVisitForm = PreVisitForm(
    symptoms: string,
    duration: string,
    medications: string,
    allergies: string,
    additionalInfo: string)
  {
    function Get(f: Field): string
    {
      match f
      case Symptoms => symptoms
      case Duration => duration
      case Medications => medications
      case Allergies => allergies
      case AdditionalInfo => additionalInfo
    }

    /** The record with one field replaced: `{...formData, field: value}`. */
    function With(f: Field, v: string): (r: PreVisitForm)
      ensures r.Get(f) == v
      ensures forall g :: g != f ==> r.Get(g) == Get(g)
    {
      match f
      case Symptoms => this.(symptoms := v)
      case Duration => this.(duration := v)
      case Medications => this.(medications := v)
      case Allergies => this.(allergies := v)
      case AdditionalInfo => this.(additionalInfo := v)
    }

    /** The two fields marked `required` are filled. */
    function RequiredFilled(): (filled: bool)
      ensures filled <==> Get(Symptoms) != "" && Get(Duration) != ""
    {
      symptoms != "" && duration != ""
    }
  }

  /** The form as the screen first shows it: every field empty. */
  function EmptyForm(): (r: PreVisitForm)
    ensures forall f :: r.Get(f) == ""
    ensures !r.RequiredFilled()
  {
    PreVisitForm("", "", "", "", "")
  }

  /** Writing a field twice keeps only the second value. */
  lemma WithTwice(form: PreVisitForm, f: Field, v: string, w: string)
    ensures form.With(f, v).With(f, w) == form.With(f, w)
  {
  }

  /** Writes to different fields do not interfere, in whichever order they happen. */
  lemma WithCommutes(form: PreVisitForm, f: Field, g: Field, v: string, w: string)
    requires f != g
    ensures form.With(f, v).With(g, w) == form.With(g, w).With(f, v)
  {
  }

  /** Writing back the value a field already holds changes nothing. */
  lemma WithSameValue(form: PreVisitForm, f: Field)
    ensures form.With(f, form.Get(f)) == form
  {
  }

  class TelemedicineSession {
    var showPreVisitForm: bool
    var formData: PreVisitForm

    constructor ()
      ensures !showPreVisitForm && formData == EmptyForm()
    {
      showPreVisitForm := false;
      formData := EmptyForm();
    }

    /** "Formulario Pre-Consulta": show the form, with whatever it held before. */
    method OpenForm()
      modifies this
      ensures showPreVisitForm && formData == old(formData)
    {
      showPreVisitForm := true;
    }

    /** "Cancelar": hide the form; what was typed is kept. */
    method CancelForm()
      modifies this
      ensures !showPreVisitForm && formData == old(formData)
    {
      showPreVisitForm := false;
    }

    /** The change handler of one input: that field takes the value, the other four are kept. */
    method UpdateField(f: Field, v: string)
      modifies this
      ensures formData == old(formData).With(f, v)
      ensures formData.Get(f) == v
      ensures forall g :: g != f ==> formData.Get(g) == old(formData).Get(g)
      ensures showPreVisitForm == old(showPreVisitForm)
    {
      formData := formData.With(f, v);
    }

    /**
     * "Enviar Formulario". The browser submits only when both required fields
     * are filled; a submitted form is hidden and its contents are kept, a
     * blocked one stays as it was.
     */
    method SubmitForm() returns (accepted: bool)
      modifies this
      ensures accepted <==> old(formData).RequiredFilled()
      ensures accepted ==> !showPreVisitForm
      ensures !accepted ==> showPreVisitForm == old(showPreVisitForm)
      ensures formData == old(formData)
    {
      accepted := formData.RequiredFilled();
      if accepted {
        showPreVisitForm := false;
      }
    }

    /** "Ver historial completo": navigate to "history", which the shell renders as the dashboard. */
    method ViewFullHistory(app: Routing.App)
      modifies app
      ensures app.currentView == "history" && app.CurrentScreen() == Routing.PatientDashboard
      ensures app.isAuthenticated == old(app.isAuthenticated) && app.userRole == old(app.userRole)
    {
      app.Navigate("history");
    }
  }
}
